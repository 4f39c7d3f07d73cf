# efg: boolean `cfg` expressions, modelled in Dafny

`efg` provides two attribute macros, `#[efg(...)]` and `#[efg_attr(...)]`.
Each takes a boolean expression over configuration options:

- identifiers (`unix`);
- `key = "value"` pairs (`feature = "std"`);
- `!`, `&&`, `||` and parentheses.

The macro rewrites the expression into Rust's own `cfg` predicate syntax:
`#[efg(unix || windows)] item` becomes `#[cfg(any(unix, windows))] item`.
`efg_attr` does the same with `cfg_attr`.

This project models the two parts of the crate that do the work:

- **The parser** (`src/expr.rs`). A recursive-descent parser reads the
  macro's argument tokens one token ahead. It builds a `Node` tree and keeps
  the tokens after a top-level comma as `rest`. On malformed input it returns
  an `Error` with a span and a message.
- **The renderer** (`src/lib.rs`). It writes the tree back as `cfg`
  predicate tokens (`not(..)`, `any(..)`, `all(..)` groups) inside
  `#[cfg(..)]` or `#[cfg_attr(..)]`, in front of the annotated item.

The project is split into these modules:

- `tokens.dfy` (module `Tokens`):
  - the `proc_macro` token trees (groups, identifiers, punctuation with its
    spacing, literals) with opaque spans;
  - the `Cursor` class, which plays the peekable iterator;
  - `Occurs`, which says where a token sequence lies inside a stream.
- `expr.dfy` (module `Expr`):
  - the syntax tree `Node`, `Error` and `Expr`;
  - the specification functions `Disjunction`, `DisjunctionLoop`,
    `Conjunction`, `ConjunctionLoop`, `Atom` and `Expression`, over a token
    stream and the position of the next unread token;
  - the parsing methods `Parse`, `ParseDisjunction`, `ParseConjunction` and
    `ParseAtom`. These advance a shared `Cursor` with `while` loops, as the
    Rust code does, and each is proved to return what its specification
    function returns.
- `expr_facts.dfy` (module `ExprFacts`): lemmas about the parser. They cover
  operators, atoms, error spans and messages, context independence and
  negation.
- `unparse.dfy` (module `Unparse`):
  - an inverse of the parser (`UnparseDisjunction`);
  - the round trip: every well-formed tree is parsed back from its unparsed
    tokens, and from any other stream that holds the same trees with any
    `!`, `&&` and `||` tokens the parser accepts, wherever they are spanned.
- `render.dfy` (module `Render`):
  - the renderer as functions (`RenderNode`, `RenderList`, `RenderExpr`,
    `Render`, `Expand`);
  - the macro bodies as methods that build the token stream step by step;
  - the shape of the rendered operand lists.
- `cfgeval.dfy` (module `CfgEval`):
  - a truth value for trees under a build configuration;
  - a reader for `cfg` predicate tokens;
  - the proof that a rendered predicate means what the parsed expression
    means, for `cfg` and for the condition of `cfg_attr`, and that `!(E)`
    means its complement.

Three behaviours of the code worth knowing:

- **Unexpected token span.** An unexpected token is reported at
  `unexpected.span()` (`src/expr.rs:141-144`). For a group this is the span
  of the whole group, not of its opening delimiter.
- **Error branch.** On a parse error, `efg` and `efg_attr` return only the
  diagnostic and drop the annotated item (`src/lib.rs:76`, `src/lib.rs:84`).
- **Nested operators.** `Or` and `And` operands that come from a
  parenthesis group are not merged into the enclosing operator:
  `(a || b) || c` parses to `Or([Or([a, b]), c])`. Only an unparenthesised
  chain is flat (`FlatChain`).

## Model

In this table, OR stands for the two-character operator made of two vertical bars, and a bar is one such character.

| member | source | states |
|---|---|---|
| Expr.Expression | src/expr.rs:20-24 | a successful parse yields a well-formed tree; `rest` is a strict suffix of the arguments that is empty or starts with a top-level `,` |
| Expr.Parse | src/expr.rs:20-24 | parsing with a cursor returns exactly `Expression(args)`, with `rest` the tokens the cursor did not consume |
| Expr.Disjunction | src/expr.rs:29-60 | a successful disjunction consumes at least one token, builds a well-formed node and stops only at end of input or at a `,` |
| Expr.DisjunctionLoop | src/expr.rs:32-53 | the or-operator loop never moves backwards, keeps every operand well-formed and stops only at end of input or at a `,` |
| Expr.Conjunction | src/expr.rs:62-91 | a successful conjunction consumes at least one token, builds a well-formed node and never stops in front of a `&` |
| Expr.ConjunctionLoop | src/expr.rs:65-84 | the `&&` loop keeps every operand well-formed and stops at the first token that is not `&` |
| Expr.Atom | src/expr.rs:93-139 | a successful atom consumes at least one token and builds a well-formed node |
| Expr.ConsumeOperator | src/expr.rs:34-45 | consuming the or-operator or `&&` fails exactly when the first character is not `Joint` or the next token is not the same punctuation; the error points at the first character; on success two tokens are consumed |
| Expr.OrOf | src/expr.rs:54-58 | a single operand is returned as itself; two or more become one `Or` of exactly those operands; well-formed operands give a well-formed node |
| Expr.AndOf | src/expr.rs:85-89 | the same for `And` |
| Expr.UnexpectedToken | src/expr.rs:141-144 | the error is reported at the token's own span (the whole group for a group) with the given message |
| Expr.ParseDisjunction | src/expr.rs:29-60 | the cursor-based disjunction returns what `Disjunction` returns from the cursor's start, and leaves the cursor where `Disjunction` stops |
| Expr.ParseConjunction | src/expr.rs:62-91 | the cursor-based conjunction returns what `Conjunction` returns, and leaves the cursor where it stops |
| Expr.ParseAtom | src/expr.rs:93-139 | the cursor-based atom returns what `Atom` returns, and leaves the cursor where it stops |
| ExprFacts.DisjunctionContextFree | src/expr.rs:129-136 | the context only picks the span of a missing-operand error: a successful parse is the same at top level and inside any group |
| ExprFacts.AtomContextFree | src/expr.rs:129-136 | a successful atom is the same in every context |
| ExprFacts.OrOperator | src/expr.rs:34-45 | a disjunction loop that succeeds at a bar had a `Joint` bar followed by a bar; a malformed or-operator is `Error(span of the first bar, "expected OR")` |
| ExprFacts.AndOperator | src/expr.rs:67-78 | the same rule for `&&`, with "expected &&" |
| ExprFacts.SingleAmpersand | src/expr.rs:67-78 | `a & b` with a lone `&` is rejected at that `&` with "expected &&" |
| ExprFacts.UnexpectedAfterOperand | src/expr.rs:49-51 | after an operand, a token other than a bar or `,` is "unexpected token" at its span; the conjunction loop returns in front of any token other than `&` without consuming it |
| ExprFacts.IdentifierAtom | src/expr.rs:103-120 | an identifier followed by `=` and a literal is `Equal` with that `=` token; a non-literal after `=` and end of input after `=` give their two errors; otherwise the identifier alone, with the next token unread |
| ExprFacts.NotAtom | src/expr.rs:121-124 | `!` wraps exactly the atom after it in `Not`, and passes its error on |
| ExprFacts.DoubleNegation | src/expr.rs:121-124 | `!!a` parses to `Not(Not(a))` |
| ExprFacts.MissingOperand | src/expr.rs:129-137 | a missing operand is "expected an identifier" at the group's closing span inside a group, and "unexpected end of input" at the call site at top level |
| ExprFacts.EmptyInput | src/expr.rs:129-137 | empty arguments and an empty `()` are both rejected, with those two errors |
| ExprFacts.ParenthesisGroup | src/expr.rs:95-101 | a parenthesis group parses to its inner expression only if nothing is left over; a leftover token is always a `,` and gives "unexpected token" at it |
| ExprFacts.NotAnOperand | src/expr.rs:125-128 | a literal, a non-parenthesis group or a punctuation other than `!` in operand position gives "unexpected token, expected an identifier" at the token's own span |
| ExprFacts.NegatedExpression | src/expr.rs:121-124 | if `E` parses completely to `n`, then `!(E)` parses completely to `Not(n)` |
| ExprFacts.NegatedExpressionWithRest | src/expr.rs:95-101 | if `E` stops at a top-level comma, then `!(E)` is rejected at that comma |
| Unparse.ParseUnparse | src/expr.rs:29-139 | every well-formed tree is parsed back, with nothing left over, from its unparsed tokens |
| Unparse.FlatChain | src/expr.rs:54-58 | the unparenthesised chain `a OR b OR c`, written with any two or-operators the parser accepts (two bar tokens, the first one `Joint`, spans and the second spacing free), is one flat `Or` of three operands |
| Unparse.DisjunctionRoundTrip | src/expr.rs:29-60 | a tree's unparsed tokens, followed by end of input or a `,`, parse back to the tree at the disjunction level and stop right after them |
| Unparse.JoinOrRoundTrip | src/expr.rs:54-58 | operands joined by the or-operator parse to one `Or` of exactly those operands |
| Unparse.OrTailRoundTrip | src/expr.rs:32-53 | each `OR operand` step of the loop appends that operand |
| Unparse.ConjunctionRoundTrip | src/expr.rs:62-91 | the same at the conjunction level, up to a token that is not `&` or `=` |
| Unparse.JoinAndRoundTrip | src/expr.rs:85-89 | operands joined by `&&` parse to one `And` of exactly those operands |
| Unparse.AndTailRoundTrip | src/expr.rs:65-84 | each `&& operand` step of the loop appends that operand |
| Unparse.AtomRoundTrip | src/expr.rs:93-139 | an identifier, a `key = lit` pair, a negation and a parenthesised `Or`/`And` are each parsed back as themselves |
| Render.RenderNode | src/lib.rs:110-157 | a rendered predicate has one to three tokens, starts with an identifier, does not end with punctuation, and has no top-level comma when the tree is well-formed |
| Render.Render | src/lib.rs:88-102 | the attribute takes two tokens and the item follows unchanged |
| Render.RenderExpr | src/lib.rs:104-108 | the rendered predicate is followed by the unparsed `rest`, unchanged |
| Render.Expand | src/lib.rs:73-86 | the expansion is tokens exactly when the arguments parse; then it is the two attribute tokens followed by the item unchanged; otherwise it is the parse error alone |
| Render.RenderNodeTokens | src/lib.rs:110-157 | building the stream by repeated `extend` gives exactly `RenderNode(node)` |
| Render.RenderOperands | src/lib.rs:128-135 | the comma-inserting loop gives exactly `RenderList(nodes)` |
| Render.RenderExprTokens | src/lib.rs:104-108 | the predicate followed by `rest` unchanged |
| Render.Efg | src/lib.rs:73-78 | `efg` expands with the head `cfg`, and to the diagnostic alone on a parse error |
| Render.EfgAttr | src/lib.rs:81-86 | `efg_attr` expands with the head `cfg_attr`, and to the diagnostic alone on a parse error |
| Render.Attribute | src/lib.rs:74-77 | the shared match: a rendered attribute in front of the item, or only the error |
| Render.RenderListSnoc | src/lib.rs:129-134 | one loop step appends a comma (except before the first operand) and the operand's render |
| Render.RenderListChunks | src/lib.rs:127-154 | splitting the inside of `any(..)`/`all(..)` at its commas gives the operand renders, in order, one per operand; there is one comma fewer than there are operands |
| Render.RenderList | src/lib.rs:128-135 | the comma-separated operand renders: empty exactly for no operands; otherwise it starts with an identifier and ends with a non-punctuation token, so no comma leads or trails |
| CfgEval.AnyHolds | src/lib.rs:127-140 | an `Or`, rendered as `any`, holds exactly when some operand holds |
| CfgEval.AllHold | src/lib.rs:141-154 | an `And`, rendered as `all`, holds exactly when every operand holds |
| CfgEval.NodeEvaluates | src/lib.rs:110-157 | a rendered predicate, followed by end or `,`, reads back with the value of its tree |
| CfgEval.ListEvaluates | src/lib.rs:127-154 | a rendered operand list reads back as the disjunction (`any`) or conjunction (`all`) of the operands' values |
| CfgEval.RenderedPredicate | src/lib.rs:110-157 | under every configuration, the rendered predicate of a well-formed tree has the tree's value |
| CfgEval.EfgAgreesWithCfg | src/lib.rs:73-78 | when `E` parses completely, `#[efg(E)] item` becomes a `cfg` attribute whose predicate has `E`'s value, with the item after it unchanged |
| CfgEval.EfgAttrAgreesWithCfg | src/lib.rs:81-86 | when `E` parses with rest `R`, `#[efg_attr(E R)] item` becomes a `cfg_attr` attribute whose condition has `E`'s value and is followed by `R` unchanged, with the item after it unchanged |
| CfgEval.NegationComplement | tests/test.rs:10-24 | `#[efg(E)]` and `#[efg(!(E))]` have complementary values, so exactly one of the two items is kept |
| CfgEval.UnixOrWindows | tests/test.rs:29-32 | `unix OR windows`, written with any or-operator the parser accepts, parses to `Or([unix, windows])`, renders as `any(unix, windows)`, and holds when either option is set |

## Left out

- `src/error.rs` is not part of this model. Its `compile_error` turns an
  `Error` into `compile_error! { "msg" }` tokens. An expansion that fails is
  modelled as `CompileError(error)`, carrying the span and the message.
- The `proc_macro` library is modelled by plain constructors:
  - `Ident::new`, `Punct::new`, `Group::new` and `TokenStream::from_iter`;
  - spans are opaque values, with `CallSite` for `Span::call_site()`;
  - a group the macro builds gets `CallSite` for both of its spans.
- The attribute entry points' registration (`#[proc_macro_attribute]`) is
  left out.
- The compiler's own evaluation of `cfg` is not modelled.
  - `CfgEval` is a reference reader for the rendered syntax, written for
    the proofs: options, `key = "value"` pairs (compared by literal text),
    `any`, `all` and `not`.
  - It does not cover anything else the compiler accepts.
- `Expr.rest` is the list of unread tokens, not a live iterator.
- `Unparse` has no counterpart in the crate. It is an inverse written to
  state what the parser accepts.
- Tokens passed through `macro_rules!` fragments (`$expr:expr` in
  `tests/test.rs`) may arrive as groups without delimiters. `parse_atom`
  rejects every group that is not parenthesised, and the model does the
  same. Whether the compiler flattens such groups first is outside the
  model.
