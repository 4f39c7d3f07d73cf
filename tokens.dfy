/** The token trees of Rust's `proc_macro` interface, as far as the macro
    reads and builds them. Spans are opaque source locations; `CallSite` is
    the span `Span::call_site()` gives to tokens the macro creates itself. */
module Tokens {

  /** Rust's `Option`, as returned by `peek` and `next`. */
  datatype Option<T> = None | Some(value: T)

  datatype Span = CallSite | Located(id: nat)

  datatype Delimiter = Parenthesis | Brace | Bracket | NoDelimiter

  /** `Joint` means the punctuation is immediately followed by another
      punctuation character (as the first `&` of `&&` is). */
  datatype Spacing = Alone | Joint

  /** A group carries its whole span (`span()`) and the span of its closing
      delimiter (`span_close()`). */
  datatype TokenTree =
    | Group(delimiter: Delimiter, stream: seq<TokenTree>, span: Span, spanClose: Span)
    | Ident(name: string, span: Span)
    | Punct(ch: char, spacing: Spacing, span: Span)
    | Literal(text: string, span: Span)

  type IdentToken = t: TokenTree | t.Ident? witness Ident("x", CallSite)
  type PunctToken = t: TokenTree | t.Punct? witness Punct('=', Alone, CallSite)
  type LiteralToken = t: TokenTree | t.Literal? witness Literal("\"x\"", CallSite)
  type GroupToken = t: TokenTree | t.Group? witness Group(Parenthesis, [], CallSite, CallSite)

  predicate IsPunct(t: TokenTree, c: char)
  {
    t.Punct? && t.ch == c
  }

  /** `Group::new(delimiter, stream)`: a group the macro builds, spanned at the call site. */
  function NewGroup(delimiter: Delimiter, stream: seq<TokenTree>): (g: GroupToken)
    ensures g.delimiter == delimiter && g.stream == stream
  {
    Group(delimiter, stream, CallSite, CallSite)
  }

  // ---------------------------------------------------------------------
  // Where a token sequence appears inside a stream

  /** `u` appears in `ts` starting at `pos`. */
  predicate Occurs(ts: seq<TokenTree>, pos: nat, u: seq<TokenTree>)
  {
    pos + |u| <= |ts| && Matches(ts, pos, u)
  }

  /** Token by token, `ts` from `pos` on starts with `u`. */
  predicate Matches(ts: seq<TokenTree>, pos: nat, u: seq<TokenTree>)
    requires pos + |u| <= |ts|
    decreases |u|
  {
    |u| == 0 || (ts[pos] == u[0] && Matches(ts, pos + 1, u[1..]))
  }

  lemma {:induction false} OccursSplit(ts: seq<TokenTree>, pos: nat, a: seq<TokenTree>, b: seq<TokenTree>)
    requires Occurs(ts, pos, a + b)
    ensures Occurs(ts, pos, a) && Occurs(ts, pos + |a|, b)
    decreases |a|
  {
    if |a| == 0 {
      assert a + b == b;
    } else {
      assert (a + b)[1..] == a[1..] + b;
      OccursSplit(ts, pos + 1, a[1..], b);
    }
  }

  lemma {:induction false} OccursAt(ts: seq<TokenTree>, pos: nat, u: seq<TokenTree>, i: nat)
    requires Occurs(ts, pos, u) && i < |u|
    ensures ts[pos + i] == u[i]
    decreases i
  {
    if i > 0 {
      OccursAt(ts, pos + 1, u[1..], i - 1);
    }
  }

  lemma {:induction false} OccursSuffix(ts: seq<TokenTree>, pos: nat)
    requires pos <= |ts|
    ensures Occurs(ts, pos, ts[pos..])
    decreases |ts| - pos
  {
    if pos < |ts| {
      assert ts[pos..][1..] == ts[pos + 1..];
      OccursSuffix(ts, pos + 1);
    }
  }

  lemma OccursThree(ts: seq<TokenTree>, pos: nat, a: seq<TokenTree>, b: seq<TokenTree>, c: seq<TokenTree>)
    requires Occurs(ts, pos, a + (b + c))
    ensures Occurs(ts, pos, a) && Occurs(ts, pos + |a|, b) && Occurs(ts, pos + |a| + |b|, c)
  {
    OccursSplit(ts, pos, a, b + c);
    OccursSplit(ts, pos + |a|, b, c);
  }

  /** A `Peekable` iterator over a token stream: it reads one token ahead and
      consumes one token at a time. `pos` counts the tokens consumed. */
  class Cursor {
    const tokens: seq<TokenTree>
    var pos: nat

    ghost predicate Valid()
      reads this
    {
      pos <= |tokens|
    }

    /** The tokens not yet consumed. */
    function Rest(): seq<TokenTree>
      reads this
      requires Valid()
    {
      tokens[pos..]
    }

    constructor (stream: seq<TokenTree>)
      ensures Valid() && tokens == stream && pos == 0
    {
      tokens := stream;
      pos := 0;
    }

    method Peek() returns (t: Option<TokenTree>)
      requires Valid()
      ensures t == if pos < |tokens| then Some(tokens[pos]) else None
    {
      t := if pos < |tokens| then Some(tokens[pos]) else None;
    }

    method Next() returns (t: Option<TokenTree>)
      requires Valid()
      modifies this
      ensures Valid()
      ensures t == if old(pos) < |tokens| then Some(tokens[old(pos)]) else None
      ensures pos == if old(pos) < |tokens| then old(pos) + 1 else old(pos)
    {
      if pos < |tokens| {
        t := Some(tokens[pos]);
        pos := pos + 1;
      } else {
        t := None;
      }
    }
  }
}
