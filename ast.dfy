/** The syntax tree the parser produces and the evaluators consume
    (src/frontend/ast.ts). A field that the source types as `BlockLiteral`
    holds the block's expressions directly. */
module Ast {
  import opened Utils

  datatype ForLoopType = Traditional | In | Of

  datatype Expr =
    // expressions
    | Identifier(symbol: string)
    | BinaryExpr(leftHand: Expr, rightHand: Expr, operator: string)
    | AssignmentExpr(lefthand: Expr, rightHand: Expr, assignOp: Option<string>, isRef: bool, isConst: bool)
    | IndexExpr(expr: Expr, index: Expr)
    | CallExpr(caller: Expr, args: seq<Expr>)
    | PreUnaryExpr(expr: Expr, operator: string)
    | PostUnaryExpr(expr: Expr, operator: string)
    | FunctionExpr(parameter: seq<string>, fnBody: seq<Expr>)
    | IfExpr(condition: Expr, trueBlock: seq<Expr>, falseBlock: seq<Expr>)
    | ShiftExpr(leftHand: Expr, rightHand: Expr)
    | WhileExpr(condition: Expr, whileBody: seq<Expr>)
    | ForLoopExpr(init: Expr, condition: Expr, step: Expr, body: Expr)
    | ForEachExpr(loopType: ForLoopType, identifier: string, enumerable: Expr, body: Expr)
    | MethodExpr(expr: Expr, methodName: string, args: seq<Expr>)
    | RangeExpr(start: Expr, end: Expr, inclusive: bool, step: Expr)
    | PushExpr(value: Expr, list: Expr, index: Expr)
    | PopExpr(list: Expr, index: Expr)
    // literals
    | NumberLiteral(number: int)
    | BooleanLiteral(bvalue: bool)
    | NullLiteral
    | BlockLiteral(items: seq<Expr>)
    | StringLiteral(str: string)
    | CharacterLiteral(character: string)
    | ListLiteral(elements: seq<Expr>)
    | ControlLiteral(control: string, carryCount: int)

  const NULLLITERAL: Expr := NullLiteral
  const TRUELITERAL: Expr := BooleanLiteral(true)
  const FALSELITERAL: Expr := BooleanLiteral(false)
  /** `EMPTYBLOCK`: a block holding only `null`. */
  const EMPTYBLOCK: Expr := BlockLiteral([NullLiteral])
  /** The default range start and step are names looked up at run time. */
  const ZERO: Expr := Identifier("zero")
  const ONE: Expr := Identifier("one")
}
