/** The recursive-descent parser (src/frontend/parser.ts). The functions of
    this module are the reference grammar: each takes the remaining token
    list and answers the node it parses together with the tokens it leaves.
    The class `Parser` is the source's parser object, whose `token` field is
    consumed from the front by every step; each of its methods is proved to
    leave exactly the tokens, and answer exactly the node, of the function
    of the same level. */
module Parser {
  import opened Utils
  import Ast
  import Lexer

  // ---------------------------------------------------------------------
  // Tokens as the parser sees them

  /** Every token type the parser tests: the lexer's, then the ones this
      revision of the lexer does not produce (the parser names them, so a
      token list handed to the parser may hold them). */
  datatype Kind =
    | Number | Identifier | Null | Boolean | StringLiteral
    | Function
    | OpenParen | CloseParen | OpenBrace | CloseBrace | OpenBracket | CloseBracket
    | OpenDoubleAngle | CloseDoubleAngle
    | Comma | Colon | Equal | Dot | Plus | Minus | Star | Slash | Percent | Pipe
    | Quote | Dollar | Ampersand | Octothorp | Exclamation | Omega
    | Increment | Decrement
    | EOF
    // named by the parser only
    | SemiColon | DoubleArrow | Arrow | Question | DoubleColon | DoubleDot
    | LeftDoubleAngle | While | For | In | Of
    | Greater | Lesser | GreaterEqual | LesserEqual | Equality | And | Or
    | CharacterLiteral | ControlLiteral | Avagadro | Pi

  datatype Tok = Tok(kind: Kind, value: string)

  /** The lexer's token type under the same name. */
  function KindOf(t: Lexer.TokenType): (k: Kind)
    ensures k == EOF <==> t == Lexer.EOF
  {
    match t
    case Number => Number
    case Identifier => Identifier
    case Null => Null
    case Boolean => Boolean
    case StringLiteral => StringLiteral
    case Function => Function
    case OpenParen => OpenParen
    case CloseParen => CloseParen
    case OpenBrace => OpenBrace
    case CloseBrace => CloseBrace
    case OpenBracket => OpenBracket
    case CloseBracket => CloseBracket
    case OpenDoubleAngle => OpenDoubleAngle
    case CloseDoubleAngle => CloseDoubleAngle
    case Comma => Comma
    case Colon => Colon
    case Equal => Equal
    case Dot => Dot
    case Plus => Plus
    case Minus => Minus
    case Star => Star
    case Slash => Slash
    case Percent => Percent
    case Pipe => Pipe
    case Quote => Quote
    case Dollar => Dollar
    case Ampersand => Ampersand
    case Octothorp => Octothorp
    case Exclamation => Exclamation
    case Omega => Omega
    case Increment => Increment
    case Decrement => Decrement
    case EOF => EOF
  }

  function FromLexer(ts: seq<Lexer.Token>): (r: seq<Tok>)
    ensures |r| == |ts|
    ensures forall i :: 0 <= i < |ts| ==> r[i] == Tok(KindOf(ts[i].tokenType), ts[i].value)
  {
    if ts == [] then [] else [Tok(KindOf(ts[0].tokenType), ts[0].value)] + FromLexer(ts[1..])
  }

  /** `LogicalOpToken`, `AdditiveOpToken`, `MultiplicativeToken`
      (src/runtime/binaryOp.ts). */
  const LOGICAL_OPS: seq<Kind> := [Greater, Lesser, GreaterEqual, LesserEqual, Equality, And, Or]
  const ADDITIVE_OPS: seq<Kind> := [Plus, Minus]
  const MULTIPLICATIVE_OPS: seq<Kind> := [Star, Slash, Percent]
  /** Every binary operator token. */
  const BINARY_OPS: seq<Kind> := LOGICAL_OPS + ADDITIVE_OPS + MULTIPLICATIVE_OPS
  /** `PreUnaryOpTokens` (src/runtime/UnaryOp.ts). */
  const PRE_UNARY_OPS: seq<Kind> := [Minus, Exclamation, Increment, Decrement]
  /** The tokens after an operator that make it a compound assignment. */
  const ASSIGN_MARKS: seq<Kind> := [Equal, DoubleColon]

  /** A token list as the lexer hands it over: it ends with EOF. */
  predicate WellEnded(ts: seq<Tok>) {
    |ts| > 0 && ts[|ts| - 1].kind == EOF
  }

  /** `rest` is what is left of `ts` after at least one token was consumed. */
  predicate Advanced(rest: seq<Tok>, ts: seq<Tok>) {
    Kept(rest, ts) && |rest| < |ts|
  }

  /** `rest` is what is left of `ts` after zero or more tokens. */
  predicate Kept(rest: seq<Tok>, ts: seq<Tok>) {
    WellEnded(rest) && |rest| <= |ts|
  }

  type Parsed<T> = Result<(T, seq<Tok>)>

  predicate Consumes<T>(r: Parsed<T>, ts: seq<Tok>) {
    r.Ok? ==> Advanced(r.value.1, ts)
  }

  predicate Keeps<T>(r: Parsed<T>, ts: seq<Tok>) {
    r.Ok? ==> Kept(r.value.1, ts)
  }

  /** `isTypes(...)`: the current token has one of the kinds. */
  predicate At(ts: seq<Tok>, kinds: seq<Kind>)
    requires ts != []
  {
    ts[0].kind in kinds
  }

  /** `token[1].isTypes(...)`. */
  predicate AtNext(ts: seq<Tok>, kinds: seq<Kind>)
    requires |ts| > 1
  {
    ts[1].kind in kinds
  }

  /** Dropping a token other than EOF keeps the list well ended. */
  lemma Drop(ts: seq<Tok>)
    requires WellEnded(ts) && ts[0].kind != EOF
    ensures Advanced(ts[1..], ts)
  {
  }

  /** `expect(kind)`: consumes the current token, failing unless it has the
      expected kind. */
  function ExpectKind(ts: seq<Tok>, kind: Kind): (r: Parsed<Tok>)
    requires WellEnded(ts)
    ensures r.Ok? <==> ts[0].kind == kind
    ensures r.Ok? ==> r.value.0 == ts[0] && r.value.1 == ts[1..]
    ensures kind != EOF ==> Consumes(r, ts)
  {
    if ts[0].kind == kind then Ok((ts[0], ts[1..])) else Err(SyntaxError)
  }

  /** `parseInt` on the text of a Number token: the value of its leading
      digits, or nothing (`NaN`) when it does not start with a digit. */
  function ParseInt(s: string): (r: Option<nat>)
    ensures r.None? <==> s == [] || !Lexer.IsNumeric(s[0])
  {
    var n := Lexer.Run(s, true);
    if n == 0 then None else Some(DecimalValue(s[..n]))
  }

  function DecimalValue(s: string): nat {
    if s == [] then 0
    else DecimalValue(s[..|s| - 1]) * 10 + Digit(s[|s| - 1])
  }

  function Digit(c: char): nat {
    if '0' <= c <= '9' then (c - '0') as nat else 0
  }

  /** The parameter names of a function literal: every argument must be an
      identifier. */
  function Symbols(args: seq<Ast.Expr>): (r: Result<seq<string>>)
    ensures r.Ok? <==> forall i :: 0 <= i < |args| ==> args[i].Identifier?
    ensures r.Ok? ==> |r.value| == |args| && forall i :: 0 <= i < |args| ==> r.value[i] == args[i].symbol
  {
    if args == [] then Ok([])
    else if !args[0].Identifier? then Err(SyntaxError)
    else
      var rest :- Symbols(args[1..]);
      Ok([args[0].symbol] + rest)
  }

  /** The number of `#` tokens at the front of `ts`. */
  function Octothorps(ts: seq<Tok>): (n: nat)
    ensures n <= |ts|
    ensures forall i :: 0 <= i < n ==> ts[i].kind == Octothorp
    ensures n < |ts| ==> ts[n].kind != Octothorp
  {
    if ts != [] && ts[0].kind == Octothorp then 1 + Octothorps(ts[1..]) else 0
  }

  // ---------------------------------------------------------------------
  // The grammar, level by level. Each level either consumes at least one
  // token or calls the next tighter level on the same tokens, so the pair
  // (tokens left, level rank) decreases on every call.

  /** The three binary levels, loosest first. */
  datatype Level = Logical | Additive | Multiplicative

  function Operators(level: Level): seq<Kind> {
    match level
    case Logical => LOGICAL_OPS
    case Additive => ADDITIVE_OPS
    case Multiplicative => MULTIPLICATIVE_OPS
  }

  function LevelRank(level: Level): nat {
    match level
    case Logical => 15
    case Additive => 13
    case Multiplicative => 11
  }

  /** The current token continues the level's chain: an operator of the
      level that is not the head of a compound assignment. */
  predicate AtOperator(level: Level, ts: seq<Tok>)
    requires WellEnded(ts)
  {
    At(ts, Operators(level)) && !AtNext(ts, ASSIGN_MARKS)
  }

  /** `parseExpr`. */
  function Expression(ts: seq<Tok>): (r: Parsed<Ast.Expr>)
    requires WellEnded(ts)
    ensures Consumes(r, ts)
    decreases |ts|, 30
  {
    FuncExpr(ts)
  }

  /** `parseFuncExpr`: `(params) => block`. */
  function FuncExpr(ts: seq<Tok>): (r: Parsed<Ast.Expr>)
    requires WellEnded(ts)
    ensures Consumes(r, ts)
    decreases |ts|, 29
  {
    if !At(ts, [OpenParen]) then LoopExpr(ts)
    else
      var args :- Args(ts);
      var names :- Symbols(args.0);
      var body :- BlockAfter(DoubleArrow, args.1);
      Ok((Ast.FunctionExpr(names, body.0), body.1))
  }

  /** `expect(closer)` and then a block, the end of every construct that
      has a body. */
  function BlockAfter(closer: Kind, ts: seq<Tok>): (r: Parsed<seq<Ast.Expr>>)
    requires WellEnded(ts) && closer != EOF
    ensures Consumes(r, ts)
    decreases |ts|, 0
  {
    var close :- ExpectKind(ts, closer);
    var body :- BlockExpr(close.1);
    Ok(body)
  }

  /** `parseLoopExpr`: `while (c) block`, `for (;;) block`,
      `for (x in e) block`, `for (x of e) block`. */
  function LoopExpr(ts: seq<Tok>): (r: Parsed<Ast.Expr>)
    requires WellEnded(ts)
    ensures Consumes(r, ts)
    decreases |ts|, 28
  {
    if !At(ts, [While, For]) then ShiftExpr(ts)
    else
      Drop(ts);
      var open :- ExpectKind(ts[1..], OpenParen);
      if ts[0].kind == While then WhileRest(open.1)
      else if At(open.1, [SemiColon]) then TradFor(Ast.EMPTYBLOCK, open.1)
      else ForRest(open.1)
  }

  /** A `while` after its `(`. */
  function WhileRest(ts: seq<Tok>): (r: Parsed<Ast.Expr>)
    requires WellEnded(ts)
    ensures Consumes(r, ts)
    decreases |ts|, 31
  {
    var cond :- Expression(ts);
    var body :- BlockAfter(CloseParen, cond.1);
    Ok((Ast.WhileExpr(cond.0, body.0), body.1))
  }

  /** A `for` after its `(` whose first clause is not empty. */
  function ForRest(ts: seq<Tok>): (r: Parsed<Ast.Expr>)
    requires WellEnded(ts)
    ensures Consumes(r, ts)
    decreases |ts|, 31
  {
    var first :- Expression(ts);
    var r :-
      if At(first.1, [In, Of]) then NonTradFor(first.0, first.1)
      else if At(first.1, [SemiColon]) then TradFor(first.0, first.1)
      else Err(SyntaxError);
    Ok(r)
  }

  /** `parseTradFor`, entered on the first `;`. The token after the
      condition is dropped unchecked; when it is the last token, the final
      EOF, the source goes on to read the current token of an empty list
      and fails. */
  function TradFor(init: Ast.Expr, ts: seq<Tok>): (r: Parsed<Ast.Expr>)
    requires WellEnded(ts) && ts[0].kind == SemiColon
    ensures Consumes(r, ts)
    decreases |ts|, 0
  {
    Drop(ts);
    var cond :- ExprOr(ts[1..], SemiColon, Ast.TRUELITERAL);
    if |cond.1| == 1 then Err(HostTypeError)
    else TradForStep(init, cond.0, cond.1[1..])
  }

  /** The step and body of a traditional `for`. */
  function TradForStep(init: Ast.Expr, cond: Ast.Expr, ts: seq<Tok>): (r: Parsed<Ast.Expr>)
    requires WellEnded(ts)
    ensures Consumes(r, ts)
    decreases |ts|, 32
  {
    var step :- ExprOr(ts, CloseParen, Ast.EMPTYBLOCK);
    var body :- BlockAfter(CloseParen, step.1);
    Ok((Ast.ForLoopExpr(init, cond, step.0, Ast.BlockLiteral(body.0)), body.1))
  }

  /** A clause of a traditional `for` that may be empty: `fallback` when
      the current token is `stop`, an expression otherwise. */
  function ExprOr(ts: seq<Tok>, stop: Kind, fallback: Ast.Expr): (r: Parsed<Ast.Expr>)
    requires WellEnded(ts)
    ensures Keeps(r, ts)
    decreases |ts|, 31
  {
    if At(ts, [stop]) then Ok((fallback, ts)) else Expression(ts)
  }

  /** `parseNonTradFor`, entered on `in` or `of`. */
  function NonTradFor(identifier: Ast.Expr, ts: seq<Tok>): (r: Parsed<Ast.Expr>)
    requires WellEnded(ts) && ts[0].kind in [In, Of]
    ensures Consumes(r, ts)
    decreases |ts|, 0
  {
    if !identifier.Identifier? then Err(SyntaxError)
    else
      var loopType := if ts[0].kind == In then Ast.ForLoopType.In else Ast.ForLoopType.Of;
      Drop(ts);
      ForEachRest(loopType, identifier.symbol, ts[1..])
  }

  /** The enumerable and the body of a `for` over `in` or `of`. */
  function ForEachRest(loopType: Ast.ForLoopType, identifier: string, ts: seq<Tok>): (r: Parsed<Ast.Expr>)
    requires WellEnded(ts)
    ensures Consumes(r, ts)
    decreases |ts|, 31
  {
    var enumerable :- Expression(ts);
    var body :- BlockAfter(CloseParen, enumerable.1);
    Ok((Ast.ForEachExpr(loopType, identifier, enumerable.0, Ast.BlockLiteral(body.0)), body.1))
  }

  /** `parseShiftExpr`: `a -> b -> c` chains to the left. */
  function ShiftExpr(ts: seq<Tok>): (r: Parsed<Ast.Expr>)
    requires WellEnded(ts)
    ensures Consumes(r, ts)
    decreases |ts|, 27
  {
    var left :- IfExpr(ts);
    var r :- ShiftTail(left.0, left.1);
    Ok(r)
  }

  function ShiftTail(left: Ast.Expr, ts: seq<Tok>): (r: Parsed<Ast.Expr>)
    requires WellEnded(ts)
    ensures Keeps(r, ts)
    ensures r.Ok? ==> !At(r.value.1, [Arrow])
    decreases |ts|, 0
  {
    if At(ts, [Arrow]) then
      Drop(ts);
      var right :- AssignmentExpr(ts[1..]);
      var r :- ShiftTail(Ast.ShiftExpr(left, right.0), right.1);
      Ok(r)
    else Ok((left, ts))
  }

  /** `parseIfExpr`: `c ? block` or `c ? block : block`. */
  function IfExpr(ts: seq<Tok>): (r: Parsed<Ast.Expr>)
    requires WellEnded(ts)
    ensures Consumes(r, ts)
    decreases |ts|, 26
  {
    var cond :- PopExpr(ts);
    if !At(cond.1, [Question]) then Ok(cond)
    else
      var r :- IfBranches(cond.0, cond.1);
      Ok(r)
  }

  /** The branches of an `if` from its `?` on; without `:` the false
      branch is a block holding only `null`. */
  function IfBranches(cond: Ast.Expr, ts: seq<Tok>): (r: Parsed<Ast.Expr>)
    requires WellEnded(ts) && ts[0].kind == Question
    ensures Consumes(r, ts)
    ensures r.Ok? ==> r.value.0.IfExpr? && r.value.0.condition == cond
    decreases |ts|, 0
  {
    Drop(ts);
    var yes :- BlockExpr(ts[1..]);
    if At(yes.1, [Colon]) then
      Drop(yes.1);
      var no :- BlockExpr(yes.1[1..]);
      Ok((Ast.IfExpr(cond, yes.0, no.0), no.1))
    else
      Ok((Ast.IfExpr(cond, yes.0, [Ast.NULLLITERAL]), yes.1))
  }

  /** `parsePopExpr`: `<< list` or `<< (index) list`. */
  function PopExpr(ts: seq<Tok>): (r: Parsed<Ast.Expr>)
    requires WellEnded(ts)
    ensures Consumes(r, ts)
    decreases |ts|, 25
  {
    if !At(ts, [LeftDoubleAngle]) then AssignmentExpr(ts)
    else
      Drop(ts);
      var index :- PopIndex(ts[1..]);
      var list :- Expression(index.1);
      Ok((Ast.PopExpr(list.0, index.0), list.1))
  }

  /** The optional `(index)` of a pop; `ZERO` when absent. */
  function PopIndex(ts: seq<Tok>): (r: Parsed<Ast.Expr>)
    requires WellEnded(ts)
    ensures Keeps(r, ts)
    decreases |ts|, 0
  {
    if At(ts, [OpenParen]) then
      Drop(ts);
      var index :- Expression(ts[1..]);
      var close :- ExpectKind(index.1, CloseParen);
      Ok((index.0, close.1))
    else Ok((Ast.ZERO, ts))
  }

  /** `parseAssignmentExpr`: `a = b`, `a :: b` (constant), `a op= b`,
      `a &= b` (by reference) and their combinations. */
  function AssignmentExpr(ts: seq<Tok>): (r: Parsed<Ast.Expr>)
    requires WellEnded(ts)
    ensures Consumes(r, ts)
    decreases |ts|, 24
  {
    var left :- RangeExpr(ts);
    if AssignHead(left.1) then
      var assignment :- Assignment(left.0, left.1);
      Ok(assignment)
    else Ok(left)
  }

  /** The current tokens start an assignment operator: `=`, `::`, or one
      of those after a binary operator or `&`. */
  predicate AssignHead(ts: seq<Tok>)
    requires WellEnded(ts)
  {
    (At(ts, BINARY_OPS + [Ampersand]) && AtNext(ts, ASSIGN_MARKS)) || At(ts, ASSIGN_MARKS)
  }

  /** The assignment operator and right-hand side after `left`. */
  function Assignment(left: Ast.Expr, ts: seq<Tok>): (r: Parsed<Ast.Expr>)
    requires WellEnded(ts) && AssignHead(ts)
    ensures Consumes(r, ts)
    decreases |ts|, 0
  {
    var (op, isRef, mark) := AssignOperator(ts);
    Drop(mark);
    var right :- Expression(mark[1..]);
    Ok((Ast.AssignmentExpr(left, right.0, op, isRef, mark[0].kind == DoubleColon), right.1))
  }

  /** The compound operator, whether `&` was given, and the tokens from
      the `=` or `::` on. */
  function AssignOperator(ts: seq<Tok>): (r: (Option<string>, bool, seq<Tok>))
    requires WellEnded(ts) && AssignHead(ts)
    ensures Kept(r.2, ts) && r.2[0].kind in ASSIGN_MARKS
    ensures r.0.Some? <==> ts[0].kind in BINARY_OPS
    ensures r.0.Some? ==> r.0.value == ts[0].value
    ensures r.1 <==> ts[0].kind == Ampersand
    ensures r.2 == if ts[0].kind in ASSIGN_MARKS then ts else ts[1..]
  {
    var op := if At(ts, BINARY_OPS) then Some(ts[0].value) else None;
    var afterOp := if op.Some? then ts[1..] else ts;
    var isRef := At(afterOp, [Ampersand]);
    var mark := if isRef then afterOp[1..] else afterOp;
    (op, isRef, mark)
  }

  /** `parseRangeExpr`: `[start] .. [=] end [.. step]`; a missing start
      is `ZERO`. */
  function RangeExpr(ts: seq<Tok>): (r: Parsed<Ast.Expr>)
    requires WellEnded(ts)
    ensures Consumes(r, ts)
    ensures r.Ok? && At(ts, [DoubleDot]) ==> r.value.0.RangeExpr? && r.value.0.start == Ast.ZERO
    decreases |ts|, 23
  {
    if At(ts, [DoubleDot]) then RangeRest(Ast.ZERO, ts)
    else
      var start :- BinaryExpr(Logical, ts);
      if !At(start.1, [DoubleDot]) then Ok(start)
      else
        var r :- RangeRest(start.0, start.1);
        Ok(r)
  }

  /** The part of a range from its first `..` on: `..=` makes it
      inclusive, and a missing step is `ONE`. */
  function RangeRest(start: Ast.Expr, ts: seq<Tok>): (r: Parsed<Ast.Expr>)
    requires WellEnded(ts) && ts[0].kind == DoubleDot
    ensures Consumes(r, ts)
    ensures r.Ok? ==> r.value.0.RangeExpr? && r.value.0.start == start
    ensures r.Ok? ==> (r.value.0.inclusive <==> ts[1].kind == Equal)
    decreases |ts|, 0
  {
    Drop(ts);
    var afterDots := ts[1..];
    var inclusive := At(afterDots, [Equal]);
    var endStart := if inclusive then afterDots[1..] else afterDots;
    assert Advanced(endStart, ts) by {
      if inclusive {
        Drop(afterDots);
      }
    }
    var end :- BinaryExpr(Logical, endStart);
    var step :- RangeStep(end.1);
    Ok((Ast.RangeExpr(start, end.0, inclusive, step.0), step.1))
  }

  /** The optional `.. step` of a range; `ONE` when absent. */
  function RangeStep(ts: seq<Tok>): (r: Parsed<Ast.Expr>)
    requires WellEnded(ts)
    ensures Keeps(r, ts)
    decreases |ts|, 0
  {
    if At(ts, [DoubleDot]) then
      Drop(ts);
      var step :- BinaryExpr(Logical, ts[1..]);
      Ok(step)
    else Ok((Ast.ONE, ts))
  }

  /** `parseLogicalExpr`, `parseAdditiveExpr`, `parseMultiplicativeExpr`:
      operands of the next tighter level joined left to right. */
  function BinaryExpr(level: Level, ts: seq<Tok>): (r: Parsed<Ast.Expr>)
    requires WellEnded(ts)
    ensures Consumes(r, ts)
    decreases |ts|, LevelRank(level)
  {
    var left :- Operand(level, ts);
    var r :- BinaryTail(level, left.0, left.1);
    Ok(r)
  }

  /** An operand of `level`: the next tighter level, or a postfix unary
      expression under the multiplicative one. */
  function Operand(level: Level, ts: seq<Tok>): (r: Parsed<Ast.Expr>)
    requires WellEnded(ts)
    ensures Consumes(r, ts)
    decreases |ts|, LevelRank(level) - 1
  {
    match level
    case Logical => BinaryExpr(Additive, ts)
    case Additive => BinaryExpr(Multiplicative, ts)
    case Multiplicative => PostUnaryExpr(ts)
  }

  /** The `while` loop of a binary level, with `left` built so far. */
  function BinaryTail(level: Level, left: Ast.Expr, ts: seq<Tok>): (r: Parsed<Ast.Expr>)
    requires WellEnded(ts)
    ensures Keeps(r, ts)
    ensures r.Ok? ==> !AtOperator(level, r.value.1)
    decreases |ts|, 0
  {
    if AtOperator(level, ts) then
      Drop(ts);
      var right :- Operand(level, ts[1..]);
      var r :- BinaryTail(level, Ast.BinaryExpr(left, right.0, ts[0].value), right.1);
      Ok(r)
    else Ok((left, ts))
  }

  /** `parsePostUnaryExpr`. Its operator list `PostUnaryToken` is defined
      nowhere in this revision, so it matches no token and the level is the
      prefix level unchanged. */
  function PostUnaryExpr(ts: seq<Tok>): (r: Parsed<Ast.Expr>)
    requires WellEnded(ts)
    ensures Consumes(r, ts)
    decreases |ts|, 9
  {
    PreUnaryExpr(ts)
  }

  /** `parsePreUnaryExpr`: `-x`, `!x`, `++x`, `--x`, nesting to the right. */
  function PreUnaryExpr(ts: seq<Tok>): (r: Parsed<Ast.Expr>)
    requires WellEnded(ts)
    ensures Consumes(r, ts)
    decreases |ts|, 8
  {
    if !At(ts, PRE_UNARY_OPS) then CallExpr(ts)
    else
      Drop(ts);
      var operand :- PreUnaryExpr(ts[1..]);
      Ok((Ast.PreUnaryExpr(operand.0, ts[0].value), operand.1))
  }

  /** `parseCallExpr`: `f(args)(args)...`. */
  function CallExpr(ts: seq<Tok>): (r: Parsed<Ast.Expr>)
    requires WellEnded(ts)
    ensures Consumes(r, ts)
    decreases |ts|, 7
  {
    var caller :- IndexExpr(ts);
    var r :- CallTail(caller.0, caller.1);
    Ok(r)
  }

  function CallTail(caller: Ast.Expr, ts: seq<Tok>): (r: Parsed<Ast.Expr>)
    requires WellEnded(ts)
    ensures Keeps(r, ts)
    ensures r.Ok? ==> !At(r.value.1, [OpenParen])
    decreases |ts|, 1
  {
    if At(ts, [OpenParen]) then
      var args :- Args(ts);
      var r :- CallTail(Ast.CallExpr(caller, args.0), args.1);
      Ok(r)
    else Ok((caller, ts))
  }

  /** `parseArgs`: `( a ; b ; ... )` or `()`. */
  function Args(ts: seq<Tok>): (r: Parsed<seq<Ast.Expr>>)
    requires WellEnded(ts)
    ensures Consumes(r, ts)
    decreases |ts|, 0
  {
    var open :- ExpectKind(ts, OpenParen);
    var items :- if At(open.1, [CloseParen]) then Ok(([], open.1)) else ArgItems(open.1);
    var close :- ExpectKind(items.1, CloseParen);
    Ok((items.0, close.1))
  }

  /** The arguments of a non-empty argument list, separated by `;`. */
  function ArgItems(ts: seq<Tok>): (r: Parsed<seq<Ast.Expr>>)
    requires WellEnded(ts)
    ensures Consumes(r, ts)
    decreases |ts|, 25
  {
    var first :- AssignmentExpr(ts);
    var r :- ArgsTail([first.0], first.1);
    Ok(r)
  }

  function ArgsTail(args: seq<Ast.Expr>, ts: seq<Tok>): (r: Parsed<seq<Ast.Expr>>)
    requires WellEnded(ts)
    ensures Keeps(r, ts)
    ensures r.Ok? ==> !At(r.value.1, [SemiColon]) && args <= r.value.0
    decreases |ts|, 0
  {
    if At(ts, [SemiColon]) then
      Drop(ts);
      var arg :- AssignmentExpr(ts[1..]);
      var r :- ArgsTail(args + [arg.0], arg.1);
      Ok(r)
    else Ok((args, ts))
  }

  /** `parseIndexExpr`: `e[i][j]...`. */
  function IndexExpr(ts: seq<Tok>): (r: Parsed<Ast.Expr>)
    requires WellEnded(ts)
    ensures Consumes(r, ts)
    decreases |ts|, 6
  {
    var e :- MethodExpr(ts);
    var r :- IndexTail(e.0, e.1);
    Ok(r)
  }

  function IndexTail(e: Ast.Expr, ts: seq<Tok>): (r: Parsed<Ast.Expr>)
    requires WellEnded(ts)
    ensures Keeps(r, ts)
    ensures r.Ok? ==> !At(r.value.1, [OpenBracket])
    decreases |ts|, 0
  {
    if At(ts, [OpenBracket]) then
      Drop(ts);
      var index :- Expression(ts[1..]);
      var close :- ExpectKind(index.1, CloseBracket);
      var r :- IndexTail(Ast.IndexExpr(e, index.0), close.1);
      Ok(r)
    else Ok((e, ts))
  }

  /** `parseMethod`: `e.name(args).name(args)...`. */
  function MethodExpr(ts: seq<Tok>): (r: Parsed<Ast.Expr>)
    requires WellEnded(ts)
    ensures Consumes(r, ts)
    decreases |ts|, 5
  {
    var e :- Juxtaposition(ts);
    var r :- MethodTail(e.0, e.1);
    Ok(r)
  }

  function MethodTail(e: Ast.Expr, ts: seq<Tok>): (r: Parsed<Ast.Expr>)
    requires WellEnded(ts)
    ensures Keeps(r, ts)
    ensures r.Ok? ==> !At(r.value.1, [Dot])
    decreases |ts|, 0
  {
    if At(ts, [Dot]) then
      Drop(ts);
      var name :- Juxtaposition(ts[1..]);
      if !name.0.Identifier? then Err(SyntaxError)
      else
        var args :- Args(name.1);
        var r :- MethodTail(Ast.MethodExpr(e, name.0.symbol, args.0), args.1);
        Ok(r)
    else Ok((e, ts))
  }

  /** `parseJuxtaposition`: an expression directly followed by an
      identifier is multiplied by it (`2x`). */
  function Juxtaposition(ts: seq<Tok>): (r: Parsed<Ast.Expr>)
    requires WellEnded(ts)
    ensures Consumes(r, ts)
    decreases |ts|, 4
  {
    var e :- FloatExpr(ts);
    if At(e.1, [Identifier]) then
      var factor :- PrimaryExpr(e.1);
      Ok((Ast.BinaryExpr(e.0, factor.0, "*"), factor.1))
    else Ok(e)
  }

  /** `parseFloat`: `whole , digits`. Numbers are integers here, so only a
      fraction whose digits are all zero is representable. */
  function FloatExpr(ts: seq<Tok>): (r: Parsed<Ast.Expr>)
    requires WellEnded(ts)
    ensures Consumes(r, ts)
    decreases |ts|, 3
  {
    var whole :- PrimaryExpr(ts);
    if whole.0.NumberLiteral? && At(whole.1, [Comma]) then
      Drop(whole.1);
      var decimal :- ExpectKind(whole.1[1..], Number);
      if ParseInt(decimal.0.value) == Some(0) then Ok((whole.0, decimal.1))
      else Err(Unrepresentable)
    else Ok(whole)
  }

  /** `parsePrimaryExpr`: one literal, name, block or list. */
  function PrimaryExpr(ts: seq<Tok>): (r: Parsed<Ast.Expr>)
    requires WellEnded(ts)
    ensures Consumes(r, ts)
    decreases |ts|, 2
  {
    if ts[0].kind == EOF then Err(SyntaxError)
    else
      Drop(ts);
      var t := ts[0];
      var rest := ts[1..];
      match t.kind
      case Identifier => Ok((Ast.Identifier(t.value), rest))
      case Number =>
        var n := ParseInt(t.value);
        if n.None? then Err(Unrepresentable) else Ok((Ast.NumberLiteral(n.value), rest))
      case Null => Ok((Ast.NULLLITERAL, rest))
      case SemiColon => Ok((Ast.NULLLITERAL, rest))
      case Boolean => Ok((if t.value == "true" then Ast.TRUELITERAL else Ast.FALSELITERAL, rest))
      case StringLiteral => Ok((Ast.StringLiteral(t.value), rest))
      case CharacterLiteral => Ok((Ast.CharacterLiteral(t.value), rest))
      case OpenBrace =>
        var block :- Braced(ts);
        Ok((Ast.BlockLiteral(block.0), block.1))
      case OpenBracket => ListLiteral(ts)
      case Omega => Ok((Ast.Identifier("omega"), rest))
      case Avagadro => Ok((Ast.Identifier("avogadro"), rest))
      case Pi => Ok((Ast.Identifier("pi"), rest))
      case ControlLiteral => ControlLiteralAt(ts)
      case _ => Err(SyntaxError)
  }

  /** A control literal and the `#` tokens after it, each one a carry. */
  function ControlLiteralAt(ts: seq<Tok>): (r: Parsed<Ast.Expr>)
    requires WellEnded(ts) && ts[0].kind == ControlLiteral
    ensures Consumes(r, ts)
    decreases |ts|, 0
  {
    var carries := Octothorps(ts[1..]);
    ControlRest(carries, ts);
    Ok((Ast.ControlLiteral(ts[0].value, carries), ts[1 + carries..]))
  }

  /** The `#` tokens after a control literal stop before EOF. */
  lemma ControlRest(carries: nat, ts: seq<Tok>)
    requires WellEnded(ts) && ts[0].kind != EOF && carries == Octothorps(ts[1..])
    ensures Advanced(ts[1 + carries..], ts)
  {
    var rest := ts[1..];
    assert rest[|rest| - 1].kind == EOF;
    assert carries < |rest|;
    assert rest[carries..] == ts[1 + carries..];
  }

  /** `parseBlockExpr`: the expressions of a block. */
  function BlockExpr(ts: seq<Tok>): (r: Parsed<seq<Ast.Expr>>)
    requires WellEnded(ts)
    ensures Consumes(r, ts)
    ensures r.Ok? && !At(ts, [OpenBrace]) ==> |r.value.0| == 1
    decreases |ts|, 32
  {
    if !At(ts, [OpenBrace]) then
      var e :- Expression(ts);
      Ok(([e.0], e.1))
    else Braced(ts)
  }

  /** `{ e e ... }`. */
  function Braced(ts: seq<Tok>): (r: Parsed<seq<Ast.Expr>>)
    requires WellEnded(ts)
    ensures Consumes(r, ts)
    decreases |ts|, 1
  {
    var open :- ExpectKind(ts, OpenBrace);
    var body :- BlockItems([], open.1);
    var close :- ExpectKind(body.1, CloseBrace);
    Ok((body.0, close.1))
  }

  /** The loop of a braced block: expressions up to `}` or EOF. */
  function BlockItems(items: seq<Ast.Expr>, ts: seq<Tok>): (r: Parsed<seq<Ast.Expr>>)
    requires WellEnded(ts)
    ensures Keeps(r, ts)
    ensures r.Ok? ==> At(r.value.1, [EOF, CloseBrace]) && items <= r.value.0
    decreases |ts|, 31
  {
    if At(ts, [EOF, CloseBrace]) then Ok((items, ts))
    else
      var e :- Expression(ts);
      var r :- BlockItems(items + [e.0], e.1);
      Ok(r)
  }

  /** One item of a list literal: the rest of the list after it, or the
      failure it causes. */
  lemma ListItemsStep(items: seq<Ast.Expr>, ts: seq<Tok>)
    requires WellEnded(ts) && !At(ts, [EOF, CloseBracket])
    ensures Expression(ts).Err? ==> ListItems(items, ts) == Err(Expression(ts).error)
    ensures Expression(ts).Ok? ==> WellEnded(Expression(ts).value.1)
    ensures Expression(ts).Ok? && At(Expression(ts).value.1, [SemiColon]) ==>
              var (item, rest) := Expression(ts).value;
              WellEnded(rest[1..]) && ListItems(items, ts) == ListItems(items + [item], rest[1..])
    ensures Expression(ts).Ok? && At(Expression(ts).value.1, [CloseBracket]) ==>
              var (item, rest) := Expression(ts).value;
              ListItems(items, ts) == ListItems(items + [item], rest)
    ensures Expression(ts).Ok? && !At(Expression(ts).value.1, [SemiColon, CloseBracket]) ==>
              ListItems(items, ts) == Err(SyntaxError)
  {
    if Expression(ts).Ok? {
      var (item, rest) := Expression(ts).value;
      if At(rest, [SemiColon]) {
        Drop(rest);
      }
    }
  }

  /** `parseListLiteral`: `[ a ; b ; ... ]`, a `;` after the last item
      allowed. */
  function ListLiteral(ts: seq<Tok>): (r: Parsed<Ast.Expr>)
    requires WellEnded(ts)
    ensures Consumes(r, ts)
    decreases |ts|, 1
  {
    var open :- ExpectKind(ts, OpenBracket);
    var items :- ListItems([], open.1);
    var close :- ExpectKind(items.1, CloseBracket);
    Ok((Ast.ListLiteral(items.0), close.1))
  }

  /** The loop of a list literal: items up to `]` or EOF, each followed by
      `;` or by the `]`. */
  function ListItems(items: seq<Ast.Expr>, ts: seq<Tok>): (r: Parsed<seq<Ast.Expr>>)
    requires WellEnded(ts)
    ensures Keeps(r, ts)
    ensures r.Ok? ==> At(r.value.1, [EOF, CloseBracket]) && items <= r.value.0
    decreases |ts|, 31
  {
    if At(ts, [EOF, CloseBracket]) then Ok((items, ts))
    else
      var item :- Expression(ts);
      if At(item.1, [SemiColon]) then
        Drop(item.1);
        var r :- ListItems(items + [item.0], item.1[1..]);
        Ok(r)
      else if !At(item.1, [CloseBracket]) then Err(SyntaxError)
      else Ok((items + [item.0], item.1))  // the loop stops at the `]`
  }

  /** The loop of `produceAST`: expressions up to EOF. */
  function Program(items: seq<Ast.Expr>, ts: seq<Tok>): (r: Result<seq<Ast.Expr>>)
    requires WellEnded(ts)
    ensures r.Ok? ==> items <= r.value
    decreases |ts|
  {
    if At(ts, [EOF]) then Ok(items)
    else
      var e :- Expression(ts);
      Program(items + [e.0], e.1)
  }

  /** `produceAST(source)`: the program of the source's tokens as one
      block. */
  function Parse(source: string): (r: Result<Ast.Expr>)
    ensures Lexer.Lex(source).Err? ==> r == Err(Lexer.Lex(source).error)
    ensures r.Ok? ==> Lexer.Lex(source).Ok? && r.value.BlockLiteral?
  {
    var lexed :- Lexer.Lex(source);
    var ts := FromLexer(lexed);
    assert WellEnded(ts) by {
      Lexer.LexEndsWithEof(source);
      assert ts[|ts| - 1] == Tok(KindOf(lexed[|lexed| - 1].tokenType), lexed[|lexed| - 1].value);
    }
    var items :- Program([], ts);
    Ok(Ast.BlockLiteral(items))
  }

  // ---------------------------------------------------------------------
  // Properties of the grammar

  /** `produceAST` keeps the expressions in source order: the program of
      `ts` is its first expression followed by the program of the rest. */
  lemma {:induction false} ProgramAccumulates(items: seq<Ast.Expr>, ts: seq<Tok>)
    requires WellEnded(ts)
    ensures Program(items, ts) == Prepend(items, Program([], ts))
    decreases |ts|
  {
    if !At(ts, [EOF]) && Expression(ts).Ok? {
      var (e, rest) := Expression(ts).value;
      assert Program(items, ts) == Program(items + [e], rest);
      assert [] + [e] == [e];
      assert Program([], ts) == Program([e], rest);
      ProgramAccumulates(items + [e], rest);
      ProgramAccumulates([e], rest);
      match Program([], rest)
      case Ok(es) =>
        assert items + [e] + es == items + ([e] + es);
      case Err(_) =>
    } else if At(ts, [EOF]) {
      assert items + [] == items;
    }
  }

  function Prepend(items: seq<Ast.Expr>, r: Result<seq<Ast.Expr>>): Result<seq<Ast.Expr>> {
    match r
    case Ok(es) => Ok(items + es)
    case Err(e) => Err(e)
  }

  /** The program of a token list that does not start at EOF is its first
      expression followed by the program of what that expression leaves. */
  lemma ProgramStep(ts: seq<Tok>, e: Ast.Expr, rest: seq<Tok>)
    requires WellEnded(ts) && !At(ts, [EOF]) && Expression(ts) == Ok((e, rest))
    ensures Program([], ts) == Prepend([e], Program([], rest))
  {
    assert [] + [e] == [e];
    assert Program([], ts) == Program([e], rest);
    ProgramAccumulates([e], rest);
  }

  /** A source of nothing but whitespace is the empty block. */
  lemma BlankSource(source: string)
    requires forall i :: 0 <= i < |source| ==> Lexer.IsSkip(source[i])
    ensures Parse(source) == Ok(Ast.BlockLiteral([]))
  {
    Lexer.SkipsProduceNothing(source, "");
    assert source + "" == source;
    assert Lexer.Lex(source) == Ok([Lexer.EOF_TOKEN]);
    assert FromLexer([Lexer.EOF_TOKEN]) == [Tok(EOF, "EOF")];
  }

  /** The binary level one step tighter. */
  function Tighter(level: Level): Level
    requires level != Multiplicative
  {
    if level == Logical then Additive else Multiplicative
  }

  /** A chain ends where the current token does not continue it. */
  lemma TailStops(level: Level, left: Ast.Expr, ts: seq<Tok>)
    requires WellEnded(ts) && !AtOperator(level, ts)
    ensures BinaryTail(level, left, ts) == Ok((left, ts))
  {
  }

  /** One more operator and operand of the chain. */
  lemma TailStep(level: Level, left: Ast.Expr, ts: seq<Tok>, right: Ast.Expr, rest: seq<Tok>)
    requires WellEnded(ts) && AtOperator(level, ts)
    requires Operand(level, ts[1..]) == Ok((right, rest))
    ensures BinaryTail(level, left, ts) == BinaryTail(level, Ast.BinaryExpr(left, right, ts[0].value), rest)
  {
  }

  /** `a op b op c` groups as `(a op b) op c` on every binary level. */
  lemma {:induction false} LeftAssociative(level: Level, ts: seq<Tok>,
                                          a: Ast.Expr, r1: seq<Tok>,
                                          b: Ast.Expr, r2: seq<Tok>,
                                          c: Ast.Expr, r3: seq<Tok>)
    requires WellEnded(ts) && Operand(level, ts) == Ok((a, r1))
    requires WellEnded(r1) && AtOperator(level, r1) && Operand(level, r1[1..]) == Ok((b, r2))
    requires WellEnded(r2) && AtOperator(level, r2) && Operand(level, r2[1..]) == Ok((c, r3))
    requires WellEnded(r3) && !AtOperator(level, r3)
    ensures BinaryExpr(level, ts) ==
              Ok((Ast.BinaryExpr(Ast.BinaryExpr(a, b, r1[0].value), c, r2[0].value), r3))
  {
    TailStep(level, a, r1, b, r2);
    TailStep(level, Ast.BinaryExpr(a, b, r1[0].value), r2, c, r3);
    TailStops(level, Ast.BinaryExpr(Ast.BinaryExpr(a, b, r1[0].value), c, r2[0].value), r3);
  }

  /** In `a op b op' c`, where `op'` belongs to the next tighter level,
      `b op' c` is grouped first: `*` `/` `%` bind tighter than `+` `-`,
      and those tighter than the comparison and logical operators. */
  lemma TighterBindsFirst(level: Level, ts: seq<Tok>,
                          a: Ast.Expr, r1: seq<Tok>,
                          b: Ast.Expr, r2: seq<Tok>,
                          c: Ast.Expr, r3: seq<Tok>)
    requires level != Multiplicative
    requires WellEnded(ts) && Operand(Tighter(level), ts) == Ok((a, r1))
    requires WellEnded(r1) && AtOperator(level, r1) && Operand(Tighter(level), r1[1..]) == Ok((b, r2))
    requires WellEnded(r2) && AtOperator(Tighter(level), r2) && Operand(Tighter(level), r2[1..]) == Ok((c, r3))
    requires WellEnded(r3) && !AtOperator(level, r3) && !AtOperator(Tighter(level), r3)
    ensures BinaryExpr(level, ts) ==
              Ok((Ast.BinaryExpr(a, Ast.BinaryExpr(b, c, r2[0].value), r1[0].value), r3))
  {
    var t := Tighter(level);
    var bc := Ast.BinaryExpr(b, c, r2[0].value);
    assert !AtOperator(t, r1);
    TailStops(t, a, r1);
    assert Operand(level, ts) == Ok((a, r1));
    TailStep(t, b, r2, c, r3);
    TailStops(t, bc, r3);
    assert Operand(level, r1[1..]) == Ok((bc, r3));
    TailStep(level, a, r1, bc, r3);
    TailStops(level, Ast.BinaryExpr(a, bc, r1[0].value), r3);
  }

  /** Without `{`, a block is the one expression that follows. */
  lemma BlockOfOne(ts: seq<Tok>, e: Ast.Expr, rest: seq<Tok>)
    requires WellEnded(ts) && !At(ts, [OpenBrace]) && Expression(ts) == Ok((e, rest))
    ensures BlockExpr(ts) == Ok(([e], rest))
  {
  }

  /** A braced block parses only when its expressions stop at a `}`: when
      they run into EOF instead, the block fails. */
  lemma BracedNeedsClose(ts: seq<Tok>)
    requires WellEnded(ts) && At(ts, [OpenBrace])
    ensures BlockExpr(ts).Ok? ==>
              WellEnded(ts[1..]) && BlockItems([], ts[1..]).Ok? &&
              BlockItems([], ts[1..]).value.1[0].kind == CloseBrace
  {
    Drop(ts);
    assert BlockExpr(ts) == Braced(ts);
    assert ExpectKind(ts, OpenBrace) == Ok((ts[0], ts[1..]));
  }

  /** An `if` without `:` gets a false block holding only `null`. */
  lemma IfWithoutElse(ts: seq<Tok>, cond: Ast.Expr, r1: seq<Tok>, yes: seq<Ast.Expr>, r2: seq<Tok>)
    requires WellEnded(ts) && PopExpr(ts) == Ok((cond, r1))
    requires WellEnded(r1) && At(r1, [Question])
    requires WellEnded(r1[1..]) && BlockExpr(r1[1..]) == Ok((yes, r2))
    requires WellEnded(r2) && !At(r2, [Colon])
    ensures IfExpr(ts) == Ok((Ast.IfExpr(cond, yes, [Ast.NULLLITERAL]), r2))
  {
  }

  /** `.. end` ranges from `ZERO`, excludes its end, and steps by `ONE`. */
  lemma OpenRange(ts: seq<Tok>, end: Ast.Expr, rest: seq<Tok>)
    requires WellEnded(ts) && At(ts, [DoubleDot]) && ts[1].kind != Equal
    requires WellEnded(ts[1..]) && BinaryExpr(Logical, ts[1..]) == Ok((end, rest))
    requires WellEnded(rest) && !At(rest, [DoubleDot])
    ensures RangeExpr(ts) == Ok((Ast.RangeExpr(Ast.ZERO, end, false, Ast.ONE), rest))
  {
    assert RangeStep(rest) == Ok((Ast.ONE, rest));
    assert RangeRest(Ast.ZERO, ts) == Ok((Ast.RangeExpr(Ast.ZERO, end, false, Ast.ONE), rest));
  }

  /** `left op= right` is an assignment carrying `op`; `::` instead of `=`
      makes it constant. */
  lemma CompoundAssignment(ts: seq<Tok>, left: Ast.Expr, rest: seq<Tok>, right: Ast.Expr, after: seq<Tok>)
    requires WellEnded(ts) && RangeExpr(ts) == Ok((left, rest))
    requires WellEnded(rest) && At(rest, BINARY_OPS) && AtNext(rest, ASSIGN_MARKS)
    requires WellEnded(rest[2..]) && Expression(rest[2..]) == Ok((right, after))
    ensures AssignmentExpr(ts) ==
              Ok((Ast.AssignmentExpr(left, right, Some(rest[0].value), false, rest[1].kind == DoubleColon), after))
  {
    CompoundOperator(left, rest, right, after);
  }

  lemma CompoundOperator(left: Ast.Expr, ts: seq<Tok>, right: Ast.Expr, after: seq<Tok>)
    requires WellEnded(ts) && At(ts, BINARY_OPS) && AtNext(ts, ASSIGN_MARKS)
    requires WellEnded(ts[2..]) && Expression(ts[2..]) == Ok((right, after))
    ensures AssignHead(ts)
    ensures Assignment(left, ts) ==
              Ok((Ast.AssignmentExpr(left, right, Some(ts[0].value), false, ts[1].kind == DoubleColon), after))
  {
    assert Ampersand !in BINARY_OPS;
    assert AssignOperator(ts) == (Some(ts[0].value), false, ts[1..]);
    assert ts[1..][1..] == ts[2..];
  }


  // ---------------------------------------------------------------------
  // The parser object

  /** A method's answer paired with the tokens it left, in the form the
      grammar functions give. */
  function Answer<T>(r: Result<T>, rest: seq<Tok>): Parsed<T> {
    match r
    case Ok(v) => Ok((v, rest))
    case Err(e) => Err(e)
  }

  /** `Parser`: the token list it works on is consumed from the front.
      Each `parseX` method answers, and leaves `token` at, exactly what
      the grammar function of its level gives for the tokens it started
      from. */
  class Parser {
    /** The tokens not consumed yet, the current one first. */
    var token: seq<Tok>

    constructor ()
      ensures token == []
    {
      token := [];
    }

    /** `next()`: removes the current token and answers it. */
    method Next() returns (t: Tok)
      requires token != []
      modifies this
      ensures t == old(token)[0] && token == old(token)[1..]
    {
      t := token[0];
      token := token[1..];
    }

    /** `expect(kind)`: `next()`, failing unless the token has `kind`. */
    method Expect(kind: Kind) returns (r: Result<Tok>)
      requires WellEnded(token)
      modifies this
      ensures Answer(r, token) == ExpectKind(old(token), kind)
    {
      var t := Next();
      if t.kind != kind {
        return Err(SyntaxError);
      }
      return Ok(t);
    }

    /** `produceAST(source)`: tokenize, then parse expressions up to EOF. */
    method ProduceAST(source: string) returns (r: Result<Ast.Expr>)
      modifies this
      ensures r == Parse(source)
    {
      var lexed :- Lexer.Tokenize(source);
      token := FromLexer(lexed);
      assert WellEnded(token) by {
        Lexer.LexEndsWithEof(source);
        assert token[|token| - 1] == Tok(KindOf(lexed[|lexed| - 1].tokenType), lexed[|lexed| - 1].value);
      }
      ghost var all := token;
      var program: seq<Ast.Expr> := [];
      while !At(token, [EOF])
        invariant WellEnded(token)
        invariant Program([], all) == Program(program, token)
        decreases |token|
      {
        var e :- ParseExpr();
        program := program + [e];
      }
      return Ok(Ast.BlockLiteral(program));
    }

    method ParseExpr() returns (r: Result<Ast.Expr>)
      requires WellEnded(token)
      modifies this
      ensures Answer(r, token) == Expression(old(token))
      decreases |token|, 30
    {
      r := ParseFuncExpr();
    }

    method ParseFuncExpr() returns (r: Result<Ast.Expr>)
      requires WellEnded(token)
      modifies this
      ensures Answer(r, token) == FuncExpr(old(token))
      decreases |token|, 29
    {
      if !At(token, [OpenParen]) {
        r := ParseLoopExpr();
        return;
      }
      var args :- ParseArgs();
      var names :- Symbols(args);
      var body :- ParseBlockAfter(DoubleArrow);
      return Ok(Ast.FunctionExpr(names, body));
    }

    method ParseLoopExpr() returns (r: Result<Ast.Expr>)
      requires WellEnded(token)
      modifies this
      ensures Answer(r, token) == LoopExpr(old(token))
      decreases |token|, 28
    {
      if !At(token, [While, For]) {
        r := ParseShiftExpr();
        return;
      }
      var keyword := Next();
      var open :- Expect(OpenParen);
      if keyword.kind == While {
        r := ParseWhile();
      } else if At(token, [SemiColon]) {
        r := ParseTradFor(Ast.EMPTYBLOCK);
      } else {
        r := ParseFor();
      }
    }

    /** The `while` branch of `parseLoopExpr`, after its `(`. */
    method ParseWhile() returns (r: Result<Ast.Expr>)
      requires WellEnded(token)
      modifies this
      ensures Answer(r, token) == WhileRest(old(token))
      decreases |token|, 31
    {
      var condition :- ParseExpr();
      var body :- ParseBlockAfter(CloseParen);
      return Ok(Ast.WhileExpr(condition, body));
    }

    /** The `for` branch of `parseLoopExpr` when its first clause is not
        empty. */
    method ParseFor() returns (r: Result<Ast.Expr>)
      requires WellEnded(token)
      modifies this
      ensures Answer(r, token) == ForRest(old(token))
      decreases |token|, 31
    {
      var first :- ParseExpr();
      if At(token, [In, Of]) {
        r := ParseNonTradFor(first);
      } else if At(token, [SemiColon]) {
        r := ParseTradFor(first);
      } else {
        r := Err(SyntaxError);
      }
    }

    method ParseTradFor(init: Ast.Expr) returns (r: Result<Ast.Expr>)
      requires WellEnded(token) && token[0].kind == SemiColon
      modifies this
      ensures Answer(r, token) == TradFor(init, old(token))
      decreases |token|, 0
    {
      var semi := Next();
      var condition :- ParseExprOr(SemiColon, Ast.TRUELITERAL);
      var second := Next();
      if token == [] {
        return Err(HostTypeError);
      }
      r := ParseTradForStep(init, condition);
    }

    /** The step and the body of `parseTradFor`. */
    method ParseTradForStep(init: Ast.Expr, condition: Ast.Expr) returns (r: Result<Ast.Expr>)
      requires WellEnded(token)
      modifies this
      ensures Answer(r, token) == TradForStep(init, condition, old(token))
      decreases |token|, 32
    {
      var step :- ParseExprOr(CloseParen, Ast.EMPTYBLOCK);
      var body :- ParseBlockAfter(CloseParen);
      r := Ok(Ast.ForLoopExpr(init, condition, step, Ast.BlockLiteral(body)));
      assert Answer(r, token) == TradForStep(init, condition, old(token));
    }

    /** A clause of `parseTradFor` that may be empty: `fallback` when the
        current token is `stop`, `parseExpr` otherwise. */
    method ParseExprOr(stop: Kind, fallback: Ast.Expr) returns (r: Result<Ast.Expr>)
      requires WellEnded(token)
      modifies this
      ensures Answer(r, token) == ExprOr(old(token), stop, fallback)
      decreases |token|, 31
    {
      if At(token, [stop]) {
        return Ok(fallback);
      }
      r := ParseExpr();
    }

    method ParseNonTradFor(identifier: Ast.Expr) returns (r: Result<Ast.Expr>)
      requires WellEnded(token) && token[0].kind in [In, Of]
      modifies this
      ensures Answer(r, token) == NonTradFor(identifier, old(token))
      decreases |token|, 0
    {
      if !identifier.Identifier? {
        return Err(SyntaxError);
      }
      var isIn := At(token, [In]);
      var keyword := Next();
      var loopType := if isIn then Ast.ForLoopType.In else Ast.ForLoopType.Of;
      r := ParseForEach(loopType, identifier.symbol);
    }

    /** The enumerable and the body of `parseNonTradFor`. */
    method ParseForEach(loopType: Ast.ForLoopType, identifier: string) returns (r: Result<Ast.Expr>)
      requires WellEnded(token)
      modifies this
      ensures Answer(r, token) == ForEachRest(loopType, identifier, old(token))
      decreases |token|, 31
    {
      var enumerable :- ParseExpr();
      var body :- ParseBlockAfter(CloseParen);
      return Ok(Ast.ForEachExpr(loopType, identifier, enumerable, Ast.BlockLiteral(body)));
    }

    /** `expect(closer)` followed by `parseBlockExpr`, the end of every
        construct that has a body. */
    method ParseBlockAfter(closer: Kind) returns (r: Result<seq<Ast.Expr>>)
      requires WellEnded(token) && closer != EOF
      modifies this
      ensures Answer(r, token) == BlockAfter(closer, old(token))
      decreases |token|, 0
    {
      var close :- Expect(closer);
      r := ParseBlockExpr();
    }

    method ParseShiftExpr() returns (r: Result<Ast.Expr>)
      requires WellEnded(token)
      modifies this
      ensures Answer(r, token) == ShiftExpr(old(token))
      decreases |token|, 27
    {
      var leftHand :- ParseIfExpr();
      while At(token, [Arrow])
        invariant Advanced(token, old(token))
        invariant ShiftExpr(old(token)) == ShiftTail(leftHand, token)
        decreases |token|
      {
        var arrow := Next();
        var rightHand :- ParseAssignmentExpr();
        leftHand := Ast.ShiftExpr(leftHand, rightHand);
      }
      return Ok(leftHand);
    }

    method ParseIfExpr() returns (r: Result<Ast.Expr>)
      requires WellEnded(token)
      modifies this
      ensures Answer(r, token) == IfExpr(old(token))
      decreases |token|, 26
    {
      var condition :- ParsePopExpr();
      if At(token, [Question]) {
        var question := Next();
        var trueBlock :- ParseBlockExpr();
        var falseBlock := [Ast.NULLLITERAL];
        if At(token, [Colon]) {
          var colon := Next();
          falseBlock :- ParseBlockExpr();
        }
        condition := Ast.IfExpr(condition, trueBlock, falseBlock);
      }
      return Ok(condition);
    }


    method ParsePopExpr() returns (r: Result<Ast.Expr>)
      requires WellEnded(token)
      modifies this
      ensures Answer(r, token) == PopExpr(old(token))
      decreases |token|, 25
    {
      if !At(token, [LeftDoubleAngle]) {
        r := ParseAssignmentExpr();
        return;
      }
      var angle := Next();
      var index := Ast.ZERO;
      if At(token, [OpenParen]) {
        var open := Next();
        index :- ParseExpr();
        var close :- Expect(CloseParen);
      }
      var list :- ParseExpr();
      return Ok(Ast.PopExpr(list, index));
    }

    method ParseAssignmentExpr() returns (r: Result<Ast.Expr>)
      requires WellEnded(token)
      modifies this
      ensures Answer(r, token) == AssignmentExpr(old(token))
      decreases |token|, 24
    {
      var leftHand :- ParseRangeExpr();
      if !AssignHead(token) {
        return Ok(leftHand);
      }
      var (operator, isRef, afterOperator) := AssignOperator(token);
      token := afterOperator;
      var mark := Next();
      var isConst := mark.kind == DoubleColon;
      var rightHand :- ParseExpr();
      return Ok(Ast.AssignmentExpr(leftHand, rightHand, operator, isRef, isConst));
    }

    method ParseRangeExpr() returns (r: Result<Ast.Expr>)
      requires WellEnded(token)
      modifies this
      ensures Answer(r, token) == RangeExpr(old(token))
      decreases |token|, 23
    {
      var start := Ast.ZERO;
      if !At(token, [DoubleDot]) {
        start :- ParseBinaryExpr(Logical);
      }
      if !At(token, [DoubleDot]) {
        return Ok(start);
      }
      r := ParseRangeRest(start);
    }

    /** The part of `parseRangeExpr` from the first `..` on. */
    method ParseRangeRest(start: Ast.Expr) returns (r: Result<Ast.Expr>)
      requires WellEnded(token) && token[0].kind == DoubleDot
      modifies this
      ensures Answer(r, token) == RangeRest(start, old(token))
      decreases |token|, 0
    {
      var dots := Next();
      var inclusive := false;
      if At(token, [Equal]) {
        var equal := Next();
        inclusive := true;
      }
      assert token == if inclusive then old(token)[1..][1..] else old(token)[1..];
      var end :- ParseBinaryExpr(Logical);
      var step :- ParseRangeStep();
      return Ok(Ast.RangeExpr(start, end, inclusive, step));
    }

    /** The optional step at the end of `parseRangeExpr`. */
    method ParseRangeStep() returns (r: Result<Ast.Expr>)
      requires WellEnded(token)
      modifies this
      ensures Answer(r, token) == RangeStep(old(token))
      decreases |token|, 0
    {
      if !At(token, [DoubleDot]) {
        return Ok(Ast.ONE);
      }
      var dots := Next();
      r := ParseBinaryExpr(Logical);
    }

    /** `parseLogicalExpr`, `parseAdditiveExpr`, `parseMultiplicativeExpr`. */
    method ParseBinaryExpr(level: Level) returns (r: Result<Ast.Expr>)
      requires WellEnded(token)
      modifies this
      ensures Answer(r, token) == BinaryExpr(level, old(token))
      decreases |token|, LevelRank(level)
    {
      var leftHand :- ParseOperand(level);
      while AtOperator(level, token)
        invariant Advanced(token, old(token))
        invariant BinaryExpr(level, old(token)) == BinaryTail(level, leftHand, token)
        decreases |token|
      {
        var operator := Next();
        var rightHand :- ParseOperand(level);
        leftHand := Ast.BinaryExpr(leftHand, rightHand, operator.value);
      }
      return Ok(leftHand);
    }

    /** The call each binary level makes for its operands. */
    method ParseOperand(level: Level) returns (r: Result<Ast.Expr>)
      requires WellEnded(token)
      modifies this
      ensures Answer(r, token) == Operand(level, old(token))
      decreases |token|, LevelRank(level) - 1
    {
      match level
      case Logical => r := ParseBinaryExpr(Additive);
      case Additive => r := ParseBinaryExpr(Multiplicative);
      case Multiplicative => r := ParsePostUnaryExpr();
    }

    /** `parsePostUnaryExpr`, whose loop over the undefined `PostUnaryToken`
        list never runs. */
    method ParsePostUnaryExpr() returns (r: Result<Ast.Expr>)
      requires WellEnded(token)
      modifies this
      ensures Answer(r, token) == PostUnaryExpr(old(token))
      decreases |token|, 9
    {
      r := ParsePreUnaryExpr();
    }

    method ParsePreUnaryExpr() returns (r: Result<Ast.Expr>)
      requires WellEnded(token)
      modifies this
      ensures Answer(r, token) == PreUnaryExpr(old(token))
      decreases |token|, 8
    {
      if !At(token, PRE_UNARY_OPS) {
        r := ParseCallExpr();
        return;
      }
      var op := Next();
      var expr :- ParsePreUnaryExpr();
      return Ok(Ast.PreUnaryExpr(expr, op.value));
    }

    method ParseCallExpr() returns (r: Result<Ast.Expr>)
      requires WellEnded(token)
      modifies this
      ensures Answer(r, token) == CallExpr(old(token))
      decreases |token|, 7
    {
      var caller :- ParseIndexExpr();
      while At(token, [OpenParen])
        invariant Advanced(token, old(token))
        invariant CallExpr(old(token)) == CallTail(caller, token)
        decreases |token|
      {
        var args :- ParseArgs();
        caller := Ast.CallExpr(caller, args);
      }
      return Ok(caller);
    }

    method ParseArgs() returns (r: Result<seq<Ast.Expr>>)
      requires WellEnded(token)
      modifies this
      ensures Answer(r, token) == Args(old(token))
      decreases |token|, 0
    {
      var open :- Expect(OpenParen);
      var args: seq<Ast.Expr> := [];
      if !At(token, [CloseParen]) {
        args :- ParseArgItems();
      }
      var close :- Expect(CloseParen);
      return Ok(args);
    }

    /** The arguments of `parseArgs` when the list is not empty: the first,
        then one after each `;`. */
    method ParseArgItems() returns (r: Result<seq<Ast.Expr>>)
      requires WellEnded(token)
      modifies this
      ensures Answer(r, token) == ArgItems(old(token))
      decreases |token|, 25
    {
      var first :- ParseAssignmentExpr();
      var args := [first];
      while At(token, [SemiColon])
        invariant Advanced(token, old(token))
        invariant ArgItems(old(token)) == ArgsTail(args, token)
        decreases |token|
      {
        var semi := Next();
        var arg :- ParseAssignmentExpr();
        args := args + [arg];
      }
      return Ok(args);
    }

    method ParseIndexExpr() returns (r: Result<Ast.Expr>)
      requires WellEnded(token)
      modifies this
      ensures Answer(r, token) == IndexExpr(old(token))
      decreases |token|, 6
    {
      var expr :- ParseMethod();
      while At(token, [OpenBracket])
        invariant Advanced(token, old(token))
        invariant IndexExpr(old(token)) == IndexTail(expr, token)
        decreases |token|
      {
        var open := Next();
        var index :- ParseExpr();
        var close :- Expect(CloseBracket);
        expr := Ast.IndexExpr(expr, index);
      }
      return Ok(expr);
    }

    method ParseMethod() returns (r: Result<Ast.Expr>)
      requires WellEnded(token)
      modifies this
      ensures Answer(r, token) == MethodExpr(old(token))
      decreases |token|, 5
    {
      var expr :- ParseJuxtaposition();
      while At(token, [Dot])
        invariant Advanced(token, old(token))
        invariant MethodExpr(old(token)) == MethodTail(expr, token)
        decreases |token|
      {
        var dot := Next();
        var name :- ParseJuxtaposition();
        if !name.Identifier? {
          return Err(SyntaxError);
        }
        var args :- ParseArgs();
        expr := Ast.MethodExpr(expr, name.symbol, args);
      }
      return Ok(expr);
    }

    method ParseJuxtaposition() returns (r: Result<Ast.Expr>)
      requires WellEnded(token)
      modifies this
      ensures Answer(r, token) == Juxtaposition(old(token))
      decreases |token|, 4
    {
      var num :- ParseFloat();
      if At(token, [Identifier]) {
        var factor :- ParsePrimaryExpr();
        return Ok(Ast.BinaryExpr(num, factor, "*"));
      }
      return Ok(num);
    }

    method ParseFloat() returns (r: Result<Ast.Expr>)
      requires WellEnded(token)
      modifies this
      ensures Answer(r, token) == FloatExpr(old(token))
      decreases |token|, 3
    {
      var whole :- ParsePrimaryExpr();
      if !(whole.NumberLiteral? && At(token, [Comma])) {
        return Ok(whole);
      }
      var comma := Next();
      var decimal :- Expect(Number);
      if ParseInt(decimal.value) != Some(0) {
        return Err(Unrepresentable);
      }
      return Ok(whole);
    }

    method ParsePrimaryExpr() returns (r: Result<Ast.Expr>)
      requires WellEnded(token)
      modifies this
      ensures Answer(r, token) == PrimaryExpr(old(token))
      decreases |token|, 2
    {
      match token[0].kind
      case Identifier =>
        var t := Next();
        return Ok(Ast.Identifier(t.value));
      case Number =>
        var t := Next();
        var n := ParseInt(t.value);
        if n.None? {
          return Err(Unrepresentable);
        }
        return Ok(Ast.NumberLiteral(n.value));
      case Null =>
        var t := Next();
        return Ok(Ast.NULLLITERAL);
      case SemiColon =>
        var t := Next();
        return Ok(Ast.NULLLITERAL);
      case Boolean =>
        var t := Next();
        return Ok(if t.value == "true" then Ast.TRUELITERAL else Ast.FALSELITERAL);
      case StringLiteral =>
        var t := Next();
        return Ok(Ast.StringLiteral(t.value));
      case CharacterLiteral =>
        var t := Next();
        return Ok(Ast.CharacterLiteral(t.value));
      case OpenBrace =>
        var block :- ParseBraced();
        return Ok(Ast.BlockLiteral(block));
      case OpenBracket =>
        r := ParseListLiteral();
      case Omega =>
        var t := Next();
        return Ok(Ast.Identifier("omega"));
      case Avagadro =>
        var t := Next();
        return Ok(Ast.Identifier("avogadro"));
      case Pi =>
        var t := Next();
        return Ok(Ast.Identifier("pi"));
      case ControlLiteral =>
        r := ParseControlLiteral();
      case _ =>
        return Err(SyntaxError);
    }

    /** The control literal branch of `parsePrimaryExpr`: the literal, then
        one carry for each `#` after it. */
    method ParseControlLiteral() returns (r: Result<Ast.Expr>)
      requires WellEnded(token) && token[0].kind == ControlLiteral
      modifies this
      ensures Answer(r, token) == ControlLiteralAt(old(token))
      decreases |token|, 0
    {
      var control := Next();
      ghost var carries := token;
      var carryCount := 0;
      while At(token, [Octothorp])
        invariant WellEnded(token) && carryCount <= |carries|
        invariant token == carries[carryCount..]
        invariant carryCount + Octothorps(token) == Octothorps(carries)
        decreases |token|
      {
        var octothorp := Next();
        carryCount := carryCount + 1;
      }
      assert token == old(token)[1 + carryCount..];
      return Ok(Ast.ControlLiteral(control.value, carryCount));
    }

    /** `parseBlockExpr`; the block is answered as its expressions. */
    method ParseBlockExpr() returns (r: Result<seq<Ast.Expr>>)
      requires WellEnded(token)
      modifies this
      ensures Answer(r, token) == BlockExpr(old(token))
      decreases |token|, 32
    {
      if !At(token, [OpenBrace]) {
        var e :- ParseExpr();
        return Ok([e]);
      }
      r := ParseBraced();
    }

    /** The braced form of `parseBlockExpr`. */
    method ParseBraced() returns (r: Result<seq<Ast.Expr>>)
      requires WellEnded(token)
      modifies this
      ensures Answer(r, token) == Braced(old(token))
      decreases |token|, 1
    {
      var open :- Expect(OpenBrace);
      ghost var items := token;
      var body: seq<Ast.Expr> := [];
      while !At(token, [EOF]) && !At(token, [CloseBrace])
        invariant Kept(token, items)
        invariant BlockItems([], items) == BlockItems(body, token)
        decreases |token|
      {
        var e :- ParseExpr();
        body := body + [e];
      }
      var close :- Expect(CloseBrace);
      return Ok(body);
    }

    method ParseListLiteral() returns (r: Result<Ast.Expr>)
      requires WellEnded(token)
      modifies this
      ensures Answer(r, token) == ListLiteral(old(token))
      decreases |token|, 1
    {
      var open :- Expect(OpenBracket);
      ghost var start := token;
      var items: seq<Ast.Expr> := [];
      while !At(token, [EOF]) && !At(token, [CloseBracket])
        invariant Kept(token, start)
        invariant ListItems([], start) == ListItems(items, token)
        decreases |token|
      {
        ListItemsStep(items, token);
        var item :- ParseExpr();
        if At(token, [SemiColon]) {
          var semi := Next();
        } else if !At(token, [CloseBracket]) {
          return Err(SyntaxError);
        }
        items := items + [item];
      }
      var close :- Expect(CloseBracket);
      return Ok(Ast.ListLiteral(items));
    }
  }

}
