/** The binary operator table (src/runtime/binaryOp.ts): each of the twelve
    operators checks the tags of its operands and yields a new Number, one of
    the shared Booleans, or a TypeError. An operand that is JavaScript's
    `undefined` makes the tag test itself fail. */
module BinaryOps {
  import opened Utils
  import opened Values

  /** `BinaryOpType`. */
  datatype Op = Plus | Minus | Star | Slash | Percent | Gt | Lt | Ge | Le | EqualEqual | AndAnd | OrOr

  /** The table key of each operator. */
  function OpText(op: Op): string {
    match op
    case Plus => "+" case Minus => "-" case Star => "*" case Slash => "/"
    case Percent => "%" case Gt => ">" case Lt => "<" case Ge => ">="
    case Le => "<=" case EqualEqual => "==" case AndAnd => "&&" case OrOr => "||"
  }

  /** Looks an operator up by its text; `None` when the table has no such
      key (calling the missing entry is then a host error). */
  function ParseOp(s: string): (r: Option<Op>)
    ensures r.Some? ==> OpText(r.value) == s
    ensures forall op :: OpText(op) == s ==> r == Some(op)
  {
    if s == "+" then Some(Plus) else if s == "-" then Some(Minus)
    else if s == "*" then Some(Star) else if s == "/" then Some(Slash)
    else if s == "%" then Some(Percent) else if s == ">" then Some(Gt)
    else if s == "<" then Some(Lt) else if s == ">=" then Some(Ge)
    else if s == "<=" then Some(Le) else if s == "==" then Some(EqualEqual)
    else if s == "&&" then Some(AndAnd) else if s == "||" then Some(OrOr)
    else None
  }

  predicate IsArithmetic(op: Op) {
    op == Plus || op == Minus || op == Star || op == Slash || op == Percent
  }

  predicate IsComparison(op: Op) {
    op == Gt || op == Lt || op == Ge || op == Le
  }

  predicate IsLogical(op: Op) {
    op == AndAnd || op == OrOr
  }

  /** The payload comparison `lhs.value == rhs.value` for two values of the
      same tag: Numbers, Booleans, Characters and control words by content,
      Lists by identity of the backing array, native functions by the function
      they wrap, functions by their body. */
  predicate SamePayload(lhs: Value, rhs: Value)
    reads lhs.Footprint(), rhs.Footprint()
  {
    match lhs
    case NullV => rhs.NullV?
    case NumberV(a) => rhs.NumberV? && a.value == rhs.num.value
    case BooleanV(a) => rhs.BooleanV? && a == rhs.b
    case CharacterV(a) => rhs.CharacterV? && a == rhs.ch
    case ListV(a) => rhs.ListV? && a == rhs.list
    case FunctionV(_, body) => rhs.FunctionV? && body == rhs.body
    case NativeFunctionV(n) => rhs.NativeFunctionV? && n == rhs.name
    case ControlV(c) => rhs.ControlV? && c.control == rhs.ctrl.control
    case Undefined => false
  }

  /** The capability method of NumberVal that computes the same arithmetic or
      comparison, where there is one. */
  function NumberCapability(op: Op): Capability
    requires IsArithmetic(op) || IsComparison(op)
  {
    match op
    case Plus => Capability.Add case Minus => Capability.Sub case Star => Capability.Mul
    case Slash => Capability.Div case Percent => Capability.Mod
    case Gt => Greater case Lt => Lesser case Ge => GreaterEq case Le => LesserEq
  }

  /** `BinaryOp[op](lhs, rhs)`: the result as a primitive to be turned into a
      value (a new Number or a shared Boolean). */
  function BinaryOp(op: Op, lhs: Value, rhs: Value): (r: Result<Prim>)
    reads lhs.Footprint(), rhs.Footprint()
    // probing the tag of `undefined` is a host error, whatever the operator
    ensures lhs.Undefined? || rhs.Undefined? ==> r == Err(HostTypeError)
    // arithmetic and comparison: defined exactly on two Numbers
    ensures (IsArithmetic(op) || IsComparison(op)) && !lhs.Undefined? && !rhs.Undefined? ==>
              (!(lhs.NumberV? && rhs.NumberV?) <==> r == Err(TypeError))
    ensures IsArithmetic(op) && r.Ok? ==> r.value.PNumber?
    ensures IsComparison(op) && r.Ok? ==> r.value.PBool?
    // on two Numbers they agree with NumberVal's own capability methods, except `%`
    ensures (IsArithmetic(op) || IsComparison(op)) && op != Percent && lhs.NumberV? && rhs.NumberV? ==>
              (r.Ok? <==> InvokeCapability(lhs, NumberCapability(op), rhs).Ok?) &&
              (r.Ok? ==> InvokeCapability(lhs, NumberCapability(op), rhs) == Ok(Some(r.value)))
    // `/` fails only where the quotient is not an integer
    ensures op == Slash && lhs.NumberV? && rhs.NumberV? ==>
              (r.Ok? <==> rhs.num.value != 0 && lhs.num.value % rhs.num.value == 0) &&
              (r.Ok? ==> r.value.n * rhs.num.value == lhs.num.value)
    // `%` is the bitwise and of the two 32-bit integers, not a remainder
    ensures op == Percent && lhs.NumberV? && rhs.NumberV? ==> r == Ok(PNumber(BitAnd32(lhs.num.value, rhs.num.value)))
    // `==`: any two values of the same tag, compared by payload; different tags fail
    ensures op == EqualEqual && !lhs.Undefined? && !rhs.Undefined? ==>
              (TypeOf(lhs) == TypeOf(rhs) ==> r == Ok(PBool(SamePayload(lhs, rhs)))) &&
              (TypeOf(lhs) != TypeOf(rhs) ==> r == Err(TypeError))
    ensures op == EqualEqual && lhs.ListV? && rhs.ListV? ==> (r == Ok(PBool(true)) <==> lhs.list == rhs.list)
    // `&&` and `||`: only on two Booleans
    ensures IsLogical(op) && !lhs.Undefined? && !rhs.Undefined? ==>
              (!(lhs.BooleanV? && rhs.BooleanV?) <==> r == Err(TypeError))
    ensures op == AndAnd && lhs.BooleanV? && rhs.BooleanV? ==> r == Ok(PBool(lhs.b && rhs.b))
    ensures op == OrOr && lhs.BooleanV? && rhs.BooleanV? ==> r == Ok(PBool(lhs.b || rhs.b))
    // on TRUEVAL they agree with its `and`/`or` capability
    ensures IsLogical(op) && lhs == TRUEVAL && rhs.BooleanV? ==>
              InvokeCapability(lhs, if op == AndAnd then Capability.And else Capability.Or, rhs) == Ok(Some(r.value))
    // every failure other than the host's is a TypeError or a quotient this model cannot hold
    ensures r.Err? ==> r.error in {HostTypeError, TypeError, Unrepresentable}
  {
    if lhs.Undefined? || rhs.Undefined? then Err(HostTypeError)
    else if IsArithmetic(op) || IsComparison(op) then
      if !(lhs.NumberV? && rhs.NumberV?) then Err(TypeError)
      else
        var a, b := lhs.num.value, rhs.num.value;
        match op
        case Plus => Ok(PNumber(a + b))
        case Minus => Ok(PNumber(a - b))
        case Star => Ok(PNumber(a * b))
        case Slash => (match ExactDiv(a, b) case Some(q) => Ok(PNumber(q)) case None => Err(Unrepresentable))
        case Percent => Ok(PNumber(BitAnd32(a, b)))
        case Gt => Ok(PBool(a > b))
        case Lt => Ok(PBool(a < b))
        case Ge => Ok(PBool(a >= b))
        case Le => Ok(PBool(a <= b))
    else if op == EqualEqual then
      if TypeOf(lhs) == TypeOf(rhs) then Ok(PBool(SamePayload(lhs, rhs))) else Err(TypeError)
    else if !(lhs.BooleanV? && rhs.BooleanV?) then Err(TypeError)
    else if op == AndAnd then Ok(PBool(lhs.b && rhs.b))
    else Ok(PBool(lhs.b || rhs.b))
  }

  /** `%` and NumberVal's `mod` capability disagree: `5 % 3` is `5 & 3 = 1`
      while the capability computes the remainder 2. */
  lemma ModIsNotRemainder(x: NumberBox, y: NumberBox)
    requires x.value == 5 && y.value == 3
    ensures BinaryOp(Percent, NumberV(x), NumberV(y)) == Ok(PNumber(1))
    ensures InvokeCapability(NumberV(x), Capability.Mod, NumberV(y)) == Ok(Some(PNumber(2)))
  {
    assert AndBits(5, 3) == 1 + 2 * AndBits(2, 1);
  }
}
