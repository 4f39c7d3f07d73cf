/** The recursive-descent parser of the boolean expression syntax:
      disjunction := conjunction ('||' conjunction)*
      conjunction := atom ('&&' atom)*
      atom        := '!' atom | '(' disjunction ')' | ident ['=' literal]
    The specification functions (`Disjunction`, `Conjunction`, `Atom`,
    `Expression`) take a token stream and the position of the next unread
    token and return the node together with the position after it; the
    methods (`Parse`, `ParseDisjunction`, `ParseConjunction`, `ParseAtom`)
    advance a shared `Cursor` in place, as the parser does with its peekable
    iterator, and are proved to agree with the functions. */
module Expr {
  import opened Tokens

  /** The syntax tree. `Equal` keeps the `=` punctuation so that it can be
      emitted again unchanged. */
  datatype Node =
    | Ident(ident: IdentToken)
    | Equal(ident: IdentToken, punct: PunctToken, literal: LiteralToken)
    | Not(inner: Node)
    | Or(nodes: seq<Node>)
    | And(nodes: seq<Node>)

  /** A diagnostic: the span it points at and its message. */
  datatype Error = Error(span: Span, msg: string)

  datatype Result<T> = Ok(value: T) | Err(error: Error) {
    predicate IsFailure() { Err? }
    function PropagateFailure<U>(): Result<U> requires Err? { Err(error) }
    function Extract(): T requires Ok? { value }
  }

  /** A parsed expression and the tokens after it (none, or a top-level
      comma and what follows it). */
  datatype Expr = Expr(node: Node, rest: seq<TokenTree>)

  /** A node and the position of the first token after it. */
  datatype Parsed = Parsed(node: Node, pos: nat)

  /** Whether the parser is at top level or inside a parenthesis group
      (whose closing delimiter anchors an "expected an identifier" error). */
  datatype Ctx = TopLevel | InGroup(group: GroupToken)

  const ExpectedOr := "expected ||"
  const ExpectedAnd := "expected &&"
  const Unexpected := "unexpected token"
  const UnexpectedNotLiteral := "unexpected token, expected a literal"
  const ExpectedLiteral := "expected a literal"
  const UnexpectedNotIdent := "unexpected token, expected an identifier"
  const ExpectedIdent := "expected an identifier"
  const UnexpectedEnd := "unexpected end of input"

  /** Every `Or` and `And` has at least two operands and every `Equal`
      holds an `=` punctuation: the shape of every tree the parser builds. */
  predicate WellFormed(n: Node)
  {
    match n
    case Ident(_) => true
    case Equal(_, punct, _) => punct.ch == '='
    case Not(inner) => WellFormed(inner)
    case Or(nodes) => |nodes| >= 2 && AllWellFormed(nodes)
    case And(nodes) => |nodes| >= 2 && AllWellFormed(nodes)
  }

  predicate AllWellFormed(nodes: seq<Node>)
  {
    forall i | 0 <= i < |nodes| :: WellFormed(nodes[i])
  }

  /** A successful parse consumed at least one token and built a well-formed node. */
  predicate Advances(ts: seq<TokenTree>, pos: nat, r: Result<Parsed>)
  {
    r.Ok? ==> pos < r.value.pos <= |ts| && WellFormed(r.value.node)
  }

  /** The disjunction level stops only at end of input or at a comma. */
  predicate DisjunctionStop(ts: seq<TokenTree>, pos: nat)
    requires pos <= |ts|
  {
    pos == |ts| || IsPunct(ts[pos], ',')
  }

  /** A level that parsed exactly one operand returns it unwrapped. */
  function OrOf(operands: seq<Node>): (n: Node)
    requires |operands| >= 1
    ensures |operands| == 1 ==> n == operands[0]
    ensures |operands| >= 2 ==> n.Or? && n.nodes == operands
    ensures AllWellFormed(operands) ==> WellFormed(n)
  {
    if |operands| == 1 then operands[0] else Or(operands)
  }

  function AndOf(operands: seq<Node>): (n: Node)
    requires |operands| >= 1
    ensures |operands| == 1 ==> n == operands[0]
    ensures |operands| >= 2 ==> n.And? && n.nodes == operands
    ensures AllWellFormed(operands) ==> WellFormed(n)
  {
    if |operands| == 1 then operands[0] else And(operands)
  }

  /** The error for a token the grammar does not allow, at the token's span
      (for a group, the span of the whole group). */
  function UnexpectedToken(unexpected: TokenTree, msg: string): (e: Error)
    ensures e.span == unexpected.span && e.msg == msg
  {
    Error(unexpected.span, msg)
  }

  /** The two-character operator `cc` starting at `pos` is malformed: the
      first character is not `Joint` or the next token is not a `c`. */
  predicate MalformedOperator(ts: seq<TokenTree>, pos: nat, c: char)
    requires pos < |ts| && ts[pos].Punct?
  {
    ts[pos].spacing != Joint || pos + 1 == |ts| || !IsPunct(ts[pos + 1], c)
  }

  // ---------------------------------------------------------------------
  // Specification functions

  function Disjunction(ts: seq<TokenTree>, pos: nat, ctx: Ctx): (r: Result<Parsed>)
    requires pos <= |ts|
    ensures Advances(ts, pos, r)
    ensures r.Ok? ==> DisjunctionStop(ts, r.value.pos)
    decreases ts, |ts| - pos, 2
  {
    match Conjunction(ts, pos, ctx)
    case Err(e) => Err(e)
    case Ok(first) => DisjunctionLoop(ts, first.pos, ctx, [first.node])
  }

  /** The `loop` of `parse_disjunction`, once `operands` have been parsed. */
  function DisjunctionLoop(ts: seq<TokenTree>, pos: nat, ctx: Ctx, operands: seq<Node>): (r: Result<Parsed>)
    requires pos <= |ts|
    requires |operands| >= 1 && AllWellFormed(operands)
    ensures r.Ok? ==> pos <= r.value.pos <= |ts| && WellFormed(r.value.node)
    ensures r.Ok? ==> DisjunctionStop(ts, r.value.pos)
    decreases ts, |ts| - pos, 0
  {
    if pos == |ts| then Ok(Parsed(OrOf(operands), pos))
    else if IsPunct(ts[pos], '|') then
      if MalformedOperator(ts, pos, '|') then Err(Error(ts[pos].span, ExpectedOr))
      else
        match Conjunction(ts, pos + 2, ctx)
        case Err(e) => Err(e)
        case Ok(next) => DisjunctionLoop(ts, next.pos, ctx, operands + [next.node])
    else if IsPunct(ts[pos], ',') then Ok(Parsed(OrOf(operands), pos))
    else Err(UnexpectedToken(ts[pos], Unexpected))
  }

  function Conjunction(ts: seq<TokenTree>, pos: nat, ctx: Ctx): (r: Result<Parsed>)
    requires pos <= |ts|
    ensures Advances(ts, pos, r)
    ensures r.Ok? ==> r.value.pos == |ts| || !IsPunct(ts[r.value.pos], '&')
    decreases ts, |ts| - pos, 1
  {
    match Atom(ts, pos, ctx)
    case Err(e) => Err(e)
    case Ok(first) => ConjunctionLoop(ts, first.pos, ctx, [first.node])
  }

  /** The `loop` of `parse_conjunction`: it stops at any token that is not `&`. */
  function ConjunctionLoop(ts: seq<TokenTree>, pos: nat, ctx: Ctx, operands: seq<Node>): (r: Result<Parsed>)
    requires pos <= |ts|
    requires |operands| >= 1 && AllWellFormed(operands)
    ensures r.Ok? ==> pos <= r.value.pos <= |ts| && WellFormed(r.value.node)
    ensures r.Ok? ==> r.value.pos == |ts| || !IsPunct(ts[r.value.pos], '&')
    decreases ts, |ts| - pos, 0
  {
    if pos < |ts| && IsPunct(ts[pos], '&') then
      if MalformedOperator(ts, pos, '&') then Err(Error(ts[pos].span, ExpectedAnd))
      else
        match Atom(ts, pos + 2, ctx)
        case Err(e) => Err(e)
        case Ok(next) => ConjunctionLoop(ts, next.pos, ctx, operands + [next.node])
    else Ok(Parsed(AndOf(operands), pos))
  }

  function Atom(ts: seq<TokenTree>, pos: nat, ctx: Ctx): (r: Result<Parsed>)
    requires pos <= |ts|
    ensures Advances(ts, pos, r)
    decreases ts, |ts| - pos, 0
  {
    if pos == |ts| then
      match ctx
      case InGroup(group) => Err(Error(group.spanClose, ExpectedIdent))
      case TopLevel => Err(Error(CallSite, UnexpectedEnd))
    else if ts[pos].Group? && ts[pos].delimiter == Parenthesis then
      var stream := ts[pos].stream;
      match Disjunction(stream, 0, InGroup(ts[pos]))
      case Err(e) => Err(e)
      case Ok(inner) =>
        if inner.pos < |stream| then Err(UnexpectedToken(stream[inner.pos], Unexpected))
        else Ok(Parsed(inner.node, pos + 1))
    else if ts[pos].Ident? then
      if pos + 1 < |ts| && IsPunct(ts[pos + 1], '=') then
        if pos + 2 == |ts| then Err(Error(CallSite, ExpectedLiteral))
        else if ts[pos + 2].Literal? then Ok(Parsed(Equal(ts[pos], ts[pos + 1], ts[pos + 2]), pos + 3))
        else Err(UnexpectedToken(ts[pos + 2], UnexpectedNotLiteral))
      else Ok(Parsed(Node.Ident(ts[pos]), pos + 1))
    else if IsPunct(ts[pos], '!') then
      match Atom(ts, pos + 1, ctx)
      case Err(e) => Err(e)
      case Ok(operand) => Ok(Parsed(Not(operand.node), operand.pos))
    else Err(UnexpectedToken(ts[pos], UnexpectedNotIdent))
  }

  /** What `parse` returns for the argument tokens `args`. */
  function Expression(args: seq<TokenTree>): (r: Result<Expr>)
    ensures r.Ok? ==> WellFormed(r.value.node)
    ensures r.Ok? ==> |r.value.rest| < |args| && r.value.rest == args[|args| - |r.value.rest|..]
    ensures r.Ok? ==> r.value.rest == [] || IsPunct(r.value.rest[0], ',')
  {
    match Disjunction(args, 0, TopLevel)
    case Err(e) => Err(e)
    case Ok(p) => Ok(Expr(p.node, args[p.pos..]))
  }

  // ---------------------------------------------------------------------
  // The parser, advancing a cursor in place

  /** The outcome of a method (a node, with the cursor left at `pos`) as a
      value of the specification functions' result type. */
  function WithPos(r: Result<Node>, pos: nat): Result<Parsed>
  {
    match r
    case Ok(node) => Ok(Parsed(node, pos))
    case Err(e) => Err(e)
  }

  lemma AppendWellFormed(operands: seq<Node>, next: Node)
    requires AllWellFormed(operands) && WellFormed(next)
    ensures AllWellFormed(operands + [next])
  {
  }

  method Parse(args: seq<TokenTree>) returns (r: Result<Expr>)
    ensures r == Expression(args)
  {
    var iter := new Cursor(args);
    var node :- ParseDisjunction(iter, TopLevel);
    r := Ok(Expr(node, iter.Rest()));
  }

  /** Consumes the two-character operator `cc` whose first character is the
      next token: both must be punctuation `c`, the first one `Joint`;
      otherwise the error `msg` points at the first one. */
  method ConsumeOperator(iter: Cursor, c: char, msg: string) returns (malformed: Option<Error>)
    requires iter.Valid() && iter.pos < |iter.tokens| && IsPunct(iter.tokens[iter.pos], c)
    modifies iter
    ensures iter.Valid()
    ensures malformed.None? <==> !MalformedOperator(iter.tokens, old(iter.pos), c)
    ensures malformed.Some? ==> malformed.value == Error(iter.tokens[old(iter.pos)].span, msg)
    ensures malformed.None? ==> iter.pos == old(iter.pos) + 2
  {
    var first := iter.Next();
    if first.value.spacing != Joint {
      return Some(Error(first.value.span, msg));
    }
    var second := iter.Next();
    if !(second.Some? && IsPunct(second.value, c)) {
      return Some(Error(first.value.span, msg));
    }
    malformed := None;
  }

  method ParseDisjunction(iter: Cursor, ctx: Ctx) returns (r: Result<Node>)
    requires iter.Valid()
    modifies iter
    ensures iter.Valid()
    ensures WithPos(r, iter.pos) == Disjunction(iter.tokens, old(iter.pos), ctx)
    decreases iter.tokens, |iter.tokens| - iter.pos, 2
  {
    ghost var start := iter.pos;
    var conjunction :- ParseConjunction(iter, ctx);
    var operands := [conjunction];
    while true
      invariant iter.Valid() && start < iter.pos
      invariant |operands| >= 1 && AllWellFormed(operands)
      invariant DisjunctionLoop(iter.tokens, iter.pos, ctx, operands) == Disjunction(iter.tokens, start, ctx)
      decreases |iter.tokens| - iter.pos
    {
      var next := iter.Peek();
      if next.None? || IsPunct(next.value, ',') {
        break;
      }
      if !IsPunct(next.value, '|') {
        return Err(UnexpectedToken(next.value, Unexpected));
      }
      var malformed := ConsumeOperator(iter, '|', ExpectedOr);
      if malformed.Some? {
        return Err(malformed.value);
      }
      conjunction :- ParseConjunction(iter, ctx);
      AppendWellFormed(operands, conjunction);
      operands := operands + [conjunction];
    }
    r := Ok(OrOf(operands));
  }

  method ParseConjunction(iter: Cursor, ctx: Ctx) returns (r: Result<Node>)
    requires iter.Valid()
    modifies iter
    ensures iter.Valid()
    ensures WithPos(r, iter.pos) == Conjunction(iter.tokens, old(iter.pos), ctx)
    decreases iter.tokens, |iter.tokens| - iter.pos, 1
  {
    ghost var start := iter.pos;
    var atom :- ParseAtom(iter, ctx);
    var operands := [atom];
    while true
      invariant iter.Valid() && start < iter.pos
      invariant |operands| >= 1 && AllWellFormed(operands)
      invariant ConjunctionLoop(iter.tokens, iter.pos, ctx, operands) == Conjunction(iter.tokens, start, ctx)
      decreases |iter.tokens| - iter.pos
    {
      var next := iter.Peek();
      if !(next.Some? && IsPunct(next.value, '&')) {
        break;
      }
      var malformed := ConsumeOperator(iter, '&', ExpectedAnd);
      if malformed.Some? {
        return Err(malformed.value);
      }
      atom :- ParseAtom(iter, ctx);
      AppendWellFormed(operands, atom);
      operands := operands + [atom];
    }
    r := Ok(AndOf(operands));
  }

  method ParseAtom(iter: Cursor, ctx: Ctx) returns (r: Result<Node>)
    requires iter.Valid()
    modifies iter
    ensures iter.Valid()
    ensures WithPos(r, iter.pos) == Atom(iter.tokens, old(iter.pos), ctx)
    decreases iter.tokens, |iter.tokens| - iter.pos, 0
  {
    var next := iter.Next();
    if next.None? {
      if ctx.InGroup? {
        return Err(Error(ctx.group.spanClose, ExpectedIdent));
      }
      return Err(Error(CallSite, UnexpectedEnd));
    }
    var token := next.value;
    if token.Group? && token.delimiter == Parenthesis {
      var inner := new Cursor(token.stream);
      var node :- ParseDisjunction(inner, InGroup(token));
      var unexpected := inner.Next();
      if unexpected.Some? {
        return Err(UnexpectedToken(unexpected.value, Unexpected));
      }
      r := Ok(node);
    } else if token.Ident? {
      var peeked := iter.Peek();
      if peeked.Some? && IsPunct(peeked.value, '=') {
        var punct := peeked.value;
        var _ := iter.Next();
        var literal := iter.Next();
        if literal.None? {
          r := Err(Error(CallSite, ExpectedLiteral));
        } else if literal.value.Literal? {
          r := Ok(Equal(token, punct, literal.value));
        } else {
          r := Err(UnexpectedToken(literal.value, UnexpectedNotLiteral));
        }
      } else {
        r := Ok(Node.Ident(token));
      }
    } else if IsPunct(token, '!') {
      var atom :- ParseAtom(iter, ctx);
      r := Ok(Not(atom));
    } else {
      r := Err(UnexpectedToken(token, UnexpectedNotIdent));
    }
  }
}
