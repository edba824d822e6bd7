/** The prefix operator table (src/runtime/UnaryOp.ts). Each entry evaluates
    its operand once (the evaluation is in the `Evaluator` module) and then
    does what `PreUnary` below describes: a tag mismatch yields Null rather
    than an error, and `++`/`--` change the operand's own payload. */
module UnaryOps {
  import opened Utils
  import opened Values

  /** `PreUnaryOpType`. */
  datatype UnOp = Neg | Not | Inc | Dec

  function UnOpText(op: UnOp): string {
    match op
    case Neg => "-" case Not => "!" case Inc => "++" case Dec => "--"
  }

  /** Looks an operator up in the table; `None` for a key it lacks. */
  function ParseUnOp(s: string): (r: Option<UnOp>)
    ensures r.Some? ==> UnOpText(r.value) == s
    ensures forall op :: UnOpText(op) == s ==> r == Some(op)
  {
    if s == "-" then Some(Neg) else if s == "!" then Some(Not)
    else if s == "++" then Some(Inc) else if s == "--" then Some(Dec)
    else None
  }

  /** What an entry does to an evaluated operand: `delta` is added to the
      operand's own Number payload (0 leaves it alone), and `result` is the
      value returned. */
  datatype UnaryEffect = UnaryEffect(delta: int, result: Prim)

  /** The entry for `op` on a Number whose payload is `n`. */
  function NumberEffect(op: UnOp, n: int): UnaryEffect {
    match op
    case Neg => UnaryEffect(0, PNumber(-n))
    case Not => UnaryEffect(0, PNull)
    case Inc => UnaryEffect(1, PNumber(n + 1))
    case Dec => UnaryEffect(-1, PNumber(n - 1))
  }

  /** The entry for `op` applied to the operand value `v`. */
  function PreUnary(op: UnOp, v: Value): (r: Result<UnaryEffect>)
    reads v.Footprint()
    // only `undefined` fails: its tag cannot be probed
    ensures r.Err? <==> v.Undefined?
    ensures r.Err? ==> r.error == HostTypeError
    // `-` negates a Number
    ensures op == Neg && v.NumberV? ==> r == Ok(UnaryEffect(0, PNumber(-v.num.value)))
    // `!` flips a Boolean
    ensures op == Not && v.BooleanV? ==> r == Ok(UnaryEffect(0, PBool(!v.b)))
    // `++`/`--` step the payload by one and return a Number equal to the new payload
    ensures (op == Inc || op == Dec) && v.NumberV? ==>
              r.Ok? && r.value.delta == (if op == Inc then 1 else -1) &&
              r.value.result == PNumber(v.num.value + r.value.delta)
    // on any other tag every entry yields Null and changes nothing
    ensures r.Ok? && !(v.NumberV? && op != Not) && !(v.BooleanV? && op == Not) ==>
              r.value == UnaryEffect(0, PNull)
    // only `++`/`--` change anything, and only a Number
    ensures r.Ok? && r.value.delta != 0 ==> v.NumberV? && (op == Inc || op == Dec)
    // on a Number it depends on the payload alone
    ensures v.NumberV? ==> r == Ok(NumberEffect(op, v.num.value))
  {
    if v.Undefined? then Err(HostTypeError)
    else match op
      case Neg => Ok(if v.NumberV? then UnaryEffect(0, PNumber(-v.num.value)) else UnaryEffect(0, PNull))
      case Not => Ok(if v.BooleanV? then UnaryEffect(0, PBool(!v.b)) else UnaryEffect(0, PNull))
      case Inc => Ok(if v.NumberV? then UnaryEffect(1, PNumber(v.num.value + 1)) else UnaryEffect(0, PNull))
      case Dec => Ok(if v.NumberV? then UnaryEffect(-1, PNumber(v.num.value - 1)) else UnaryEffect(0, PNull))
  }
}
