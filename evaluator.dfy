/** The tree-walking evaluators of the runtime: src/runtime/evaluator.ts,
    which the program runs, and its predecessor src/runtime/interpreter.ts,
    which the prefix-operator table (src/runtime/UnaryOp.ts) still calls to
    evaluate its operand. Both share one engine here; `Dialect` selects the
    places where they differ.

    Every evaluation works on one scope `env` and on the payload objects of
    a ghost `World`: it may change `env` and any payload of the world, and
    allocates new ones. `Inv` is what it keeps: the scope chain is valid,
    every value reachable from a binding or from a list has its payload in
    the world. Evaluation is bounded by `fuel` (a call may recurse without
    end); running out of fuel is the failure `OutOfFuel`. A failure stands
    for `error(...)` (src/utils.ts:1-4), which throws and so ends the whole
    evaluation; `Result` propagation plays that part. */
module Eval {
  import opened Utils
  import opened Ast
  import opened Values
  import opened Env
  import opened BinaryOps
  import opened UnaryOps
  import opened ListOps

  /** `Current` is src/runtime/evaluator.ts, `Earlier` src/runtime/interpreter.ts. */
  datatype Dialect = Current | Earlier

  /** The iteration budget of the loops. */
  const LOOP_LIMIT: nat := 5000

  // ---------------------------------------------------------------------
  // What an evaluation keeps

  /** Every binding of every scope on the chain has its payload in `w`. */
  ghost predicate EnvIn(env: Enviroment, w: World)
    requires env.Valid()
    reads env.Repr
  {
    forall e :: e in env.Repr ==> MapIn(e.variables, w)
  }

  ghost predicate Inv(env: Enviroment, w: World)
    reads env.Repr, w.lists
  {
    env.Valid() && HeapClosed(w) && EnvIn(env, w)
  }

  lemma EnvInGrow(env: Enviroment, w: World, w': World)
    requires env.Valid() && EnvIn(env, w) && SubWorld(w, w')
    ensures EnvIn(env, w')
  {
    forall e | e in env.Repr ensures MapIn(e.variables, w') {
      MapInMono(e.variables, w, w');
    }
  }

  lemma InvGrow(env: Enviroment, w: World, w': World)
    requires Inv(env, w) && SubWorld(w, w')
    requires forall l :: l in w'.lists && l !in w.lists ==> StoreIn(StoreOf(l), w')
    ensures Inv(env, w')
  {
    HeapClosedGrow(w, w');
    forall e | e in env.Repr ensures MapIn(e.variables, w') {
      MapInMono(e.variables, w, w');
    }
  }

  // ---------------------------------------------------------------------
  // Blocks: the carry-count break/continue mechanism

  /** What `evalBlock` does after a child produced `v`, where `carry` is the
      carry count `v` had when it was examined. */
  datatype Step = Next | Exit(result: Value)

  function ControlStep(v: Value, carry: int): Step {
    if !v.ControlV? then Next
    else if carry > 0 then Exit(v)
    else if v.ctrl.control == "break" then Exit(NULLVAL)
    else if v.ctrl.control == "continue" then Exit(TRUEVAL)
    else Next
  }

  /** The value of a block whose children produced `trace` (with the carry
      counts `carries`): the first child that exits decides it; with none,
      the last child's value, or Null for an empty block. */
  function BlockOutcome(trace: seq<Value>, carries: seq<int>): Value
    requires |trace| == |carries|
  {
    if trace == [] then NULLVAL
    else match ControlStep(trace[0], carries[0])
      case Exit(v) => v
      case Next => if |trace| == 1 then trace[0] else BlockOutcome(trace[1..], carries[1..])
  }

  /** When no child exits, a block is worth its last child's value (Null when
      empty); in particular a block without Control values is. */
  lemma {:induction false} BlockOutcomeNoExit(trace: seq<Value>, carries: seq<int>)
    requires |trace| == |carries|
    requires forall i :: 0 <= i < |trace| ==> ControlStep(trace[i], carries[i]).Next?
    ensures BlockOutcome(trace, carries) == if trace == [] then NULLVAL else trace[|trace| - 1]
  {
    if |trace| > 1 {
      BlockOutcomeNoExit(trace[1..], carries[1..]);
    }
  }

  /** The first child that exits decides the block's value. */
  lemma {:induction false} BlockOutcomeFirstExit(trace: seq<Value>, carries: seq<int>, v: Value, c: int)
    requires |trace| == |carries|
    requires forall i :: 0 <= i < |trace| ==> ControlStep(trace[i], carries[i]).Next?
    requires ControlStep(v, c).Exit?
    ensures BlockOutcome(trace + [v], carries + [c]) == ControlStep(v, c).result
  {
    if trace != [] {
      assert (trace + [v])[1..] == trace[1..] + [v];
      assert (carries + [c])[1..] == carries[1..] + [c];
      BlockOutcomeFirstExit(trace[1..], carries[1..], v, c);
    }
  }

  /** A block never makes up a value: it yields Null, True, or one of its
      children's values. */
  lemma {:induction false} BlockOutcomeFromTrace(trace: seq<Value>, carries: seq<int>)
    requires |trace| == |carries|
    ensures var v := BlockOutcome(trace, carries); v == NULLVAL || v == TRUEVAL || v in trace
  {
    if trace != [] && ControlStep(trace[0], carries[0]).Next? && |trace| > 1 {
      BlockOutcomeFromTrace(trace[1..], carries[1..]);
    }
  }

  /** A block all of whose children were defined is itself defined (a child
      worth `undefined` never reaches this point: examining it fails). */
  lemma BlockOutcomeDefined(trace: seq<Value>, carries: seq<int>)
    requires |trace| == |carries|
    requires forall i :: 0 <= i < |trace| ==> !trace[i].Undefined?
    ensures !BlockOutcome(trace, carries).Undefined?
  {
    BlockOutcomeFromTrace(trace, carries);
  }

  /** `v` is what a block over `items` is worth when its evaluated children
      gave `trace` (carry counts `carries`): none of them `undefined`, every
      one before the last going on, and children skipped only after one
      exits. */
  predicate BlockRan(items: seq<Expr>, v: Value, trace: seq<Value>, carries: seq<int>) {
    && |trace| == |carries| <= |items|
    && v == BlockOutcome(trace, carries)
    && (forall i :: 0 <= i < |trace| ==> !trace[i].Undefined?)
    && (forall i :: 0 <= i < |trace| - 1 ==> ControlStep(trace[i], carries[i]).Next?)
    && (|trace| < |items| ==> trace != [] && ControlStep(trace[|trace| - 1], carries[|trace| - 1]).Exit?)
  }

  /** A block whose first `|trace|` children went on and whose next child
      `v` exits ran as `BlockRan` says, to the value that exit gives. */
  lemma BlockRanExit(items: seq<Expr>, trace: seq<Value>, carries: seq<int>, v: Value, c: int)
    requires |trace| == |carries| < |items|
    requires forall k :: 0 <= k < |trace| ==> ControlStep(trace[k], carries[k]).Next? && !trace[k].Undefined?
    requires !v.Undefined? && ControlStep(v, c).Exit?
    ensures BlockRan(items, ControlStep(v, c).result, trace + [v], carries + [c])
    ensures !ControlStep(v, c).result.Undefined?
  {
    BlockOutcomeFirstExit(trace, carries, v, c);
  }

  /** A block all of whose children went on ran as `BlockRan` says, to its
      last child's value (Null when empty). */
  lemma BlockRanThrough(items: seq<Expr>, trace: seq<Value>, carries: seq<int>)
    requires |trace| == |carries| == |items|
    requires forall k :: 0 <= k < |trace| ==> ControlStep(trace[k], carries[k]).Next? && !trace[k].Undefined?
    ensures BlockRan(items, if trace == [] then NULLVAL else trace[|trace| - 1], trace, carries)
  {
    BlockOutcomeNoExit(trace, carries);
  }

  /** Control words other than `break` and `continue` with no carry left do
      not stop a block. */
  lemma ControlStepOther(v: Value, c: int)
    requires v.ControlV? && c <= 0 && v.ctrl.control != "break" && v.ctrl.control != "continue"
    ensures ControlStep(v, c) == Next
  {
  }

  // ---------------------------------------------------------------------
  // Loops

  /** The iterations a loop completed, given the body values it saw: a Null
      body value stops the loop without completing its iteration. */
  function Completed(bodies: seq<Value>): nat {
    if bodies != [] && bodies[|bodies| - 1] == NULLVAL then |bodies| - 1 else |bodies|
  }

  // ---------------------------------------------------------------------
  // Values of evaluated operators

  /** `v` is the value an operator result `p` becomes. */
  predicate Denotes(v: Value, p: Prim)
    reads v.Footprint()
  {
    match p
    case PNumber(n) => v.NumberV? && v.num.value == n
    case PBool(b) => v == MkBool(b)
    case PNull => v == NULLVAL
  }

  /** Method names every JavaScript object inherits, so `name in value.method`
      holds for them too. */
  const OBJECT_MEMBERS: set<string> :=
    {"constructor", "hasOwnProperty", "isPrototypeOf", "propertyIsEnumerable", "toLocaleString",
     "toString", "valueOf", "__defineGetter__", "__defineSetter__", "__lookupGetter__",
     "__lookupSetter__", "__proto__"}

  // ---------------------------------------------------------------------
  // Single steps that keep the invariant

  /** `new NumberVal(n)`. */
  method NewNumber(n: int, env: Enviroment, ghost W: World) returns (r: Result<Value>, ghost W': World)
    requires Inv(env, W)
    ensures r.Ok? && r.value.NumberV? && fresh(r.value.num) && r.value.num.value == n
    ensures Grew(W, W') && Inv(env, W') && ResultIn(r, W') && W'.lists == W.lists
  {
    var box := new NumberBox(n);
    r, W' := Ok(NumberV(box)), AddNum(W, box);
    InvGrow(env, W, W');
  }

  /** `new StringVal(s)`: a new List of the characters of `s`. */
  method NewString(s: string, env: Enviroment, ghost W: World) returns (r: Result<Value>, ghost W': World)
    requires Inv(env, W)
    ensures r.Ok? && r.value.ListV? && fresh(r.value.list) && r.value.list.items == Chars(s)
    ensures Grew(W, W') && Inv(env, W') && ResultIn(r, W')
  {
    var v := StringVal(s);
    r, W' := Ok(v), AddList(W, v.list);
    InvGrow(env, W, W');
  }

  /** `new ControlVal(c, n)`. */
  method NewControl(c: string, n: int, env: Enviroment, ghost W: World) returns (r: Result<Value>, ghost W': World)
    requires Inv(env, W)
    ensures r.Ok? && r.value.ControlV? && fresh(r.value.ctrl)
    ensures r.Ok? && r.value.ControlV? ==> r.value.ctrl.control == c && r.value.ctrl.carryCount == n
    ensures Grew(W, W') && Inv(env, W') && ResultIn(r, W')
  {
    var box := new ControlBox(c, n);
    r, W' := Ok(ControlV(box)), AddCtrl(W, box);
    InvGrow(env, W, W');
  }

  /** `new ListVal(vals)` for values already in the world. */
  method NewList(vals: seq<Value>, env: Enviroment, ghost W: World) returns (r: Result<Value>, ghost W': World)
    requires Inv(env, W) && SeqIn(vals, W)
    ensures r.Ok? && r.value.ListV? && fresh(r.value.list)
    ensures r.Ok? && r.value.ListV? ==> r.value.list.items == vals && r.value.list.outside == map[]
    ensures Grew(W, W') && Inv(env, W') && ResultIn(r, W')
  {
    var box := new ListBox(vals);
    r, W' := Ok(ListV(box)), AddList(W, box);
    SeqInMono(vals, W, W');
    InvGrow(env, W, W');
  }

  /** An operator result joins the world: a Number payload, which the
      operator has just allocated, is added; Booleans and Null have none. */
  lemma Adopt(r: Result<Value>, env: Enviroment, W: World) returns (W': World)
    requires Inv(env, W)
    requires r.Ok? ==> r.value.NumberV? || r.value.BooleanV? || r.value.NullV?
    ensures SubWorld(W, W') && Inv(env, W') && ResultIn(r, W')
    ensures W'.lists == W.lists && W'.ctrls == W.ctrls
    ensures W'.nums <= W.nums + (if r.Ok? && r.value.NumberV? then {r.value.num} else {})
  {
    W' := if r.Ok? && r.value.NumberV? then AddNum(W, r.value.num) else W;
    InvGrow(env, W, W');
  }

  /** `env.assingVar(name, v, isConst)` for a value whose payload is in `W`. */
  method Bind(env: Enviroment, name: string, v: Value, isConst: bool, ghost W: World) returns (r: Result<Value>)
    requires Inv(env, W) && ValueIn(v, W)
    modifies env
    ensures Inv(env, W)
    ensures name in old(env.constances) ==>
              r == Err(ConstantError) && env.variables == old(env.variables) && env.constances == old(env.constances)
    ensures name !in old(env.constances) ==>
              r == Ok(v) && env.variables == old(env.variables)[name := v] &&
              env.constances == (if isConst then old(env.constances) + {name} else old(env.constances))
    ensures env.evalStack == old(env.evalStack)
  {
    r := env.AssingVar(name, v, isConst);
  }

  /** `env.unsignVar(name)`; the value read has its payload in `W`. */
  method Unbind(env: Enviroment, name: string, ghost W: World) returns (r: Result<Value>)
    requires Inv(env, W)
    modifies env
    ensures Inv(env, W) && ResultIn(r, W)
    ensures r == old(env.GetVar(name))
    ensures r.Ok? ==> name !in env.variables
    ensures r.Err? ==> env.variables == old(env.variables)
    ensures env.evalStack == old(env.evalStack)
  {
    r := env.UnsignVar(name);
  }

  /** `env.pushStack(v)`. */
  method Push(env: Enviroment, v: Value, ghost W: World)
    requires Inv(env, W)
    modifies env
    ensures Inv(env, W)
    ensures env.evalStack == [v] + old(env.evalStack)
    ensures env.variables == old(env.variables) && env.constances == old(env.constances)
  {
    var _ := env.PushStack(v);
  }

  // ---------------------------------------------------------------------
  // The engine

  /** `evaluate(astNode, env)`: a dispatch on the kind of node. */
  method Evaluate(d: Dialect, e: Expr, env: Enviroment, ghost W: World, fuel: nat)
    returns (r: Result<Value>, ghost W': World)
    requires Inv(env, W)
    modifies env, W.nums, W.lists, W.ctrls
    ensures Grew(W, W') && Inv(env, W') && ResultIn(r, W')
    ensures |env.evalStack| >= |old(env.evalStack)|
    ensures fuel == 0 ==> r == Err(OutOfFuel)
    // a name is read, changing nothing
    ensures fuel > 0 && e.Identifier? ==> unchanged(env) && (e.symbol in env.variables ==> r == Ok(env.variables[e.symbol]))
    // nodes the earlier interpreter lacks
    ensures fuel > 0 && d == Earlier && (e.MethodExpr? || e.RangeExpr? || e.PopExpr? || e.PostUnaryExpr? || e.PushExpr?) ==>
              r == Err(InternalError)
    decreases fuel, 0
  {
    if fuel == 0 {
      r, W' := Err(OutOfFuel), W;
    } else if IsAtom(e) {
      r, W' := EvalAtom(d, e, env, W);
    } else if IsFlow(e) {
      r, W' := EvalFlow(d, e, env, W, fuel - 1);
    } else {
      r, W' := EvalOperation(d, e, env, W, fuel - 1);
    }
  }

  /** Nodes evaluated without evaluating a child. */
  predicate IsAtom(e: Expr) {
    e.NumberLiteral? || e.NullLiteral? || e.BooleanLiteral? || e.StringLiteral? || e.CharacterLiteral? ||
    e.ControlLiteral? || e.Identifier? || e.FunctionExpr? || e.PostUnaryExpr? || e.PushExpr?
  }

  /** Nodes that run blocks: conditionals, loops, calls. */
  predicate IsFlow(e: Expr) {
    e.BlockLiteral? || e.IfExpr? || e.WhileExpr? || e.ForLoopExpr? || e.ForEachExpr? || e.CallExpr?
  }

  /** The literals, names, function expressions and the nodes without an
      evaluator. */
  method EvalAtom(d: Dialect, e: Expr, env: Enviroment, ghost W: World) returns (r: Result<Value>, ghost W': World)
    requires Inv(env, W) && IsAtom(e)
    ensures Grew(W, W') && Inv(env, W') && ResultIn(r, W')
    // literals of the same kind in both dialects, a new object for each Number, string and control word
    ensures e.NumberLiteral? ==> r.Ok? && r.value.NumberV? && fresh(r.value.num) && r.value.num.value == e.number
    ensures e.StringLiteral? ==> r.Ok? && r.value.ListV? && fresh(r.value.list) && r.value.list.items == Chars(e.str)
    ensures e.ControlLiteral? ==>
              r.Ok? && r.value.ControlV? && fresh(r.value.ctrl) &&
              r.value.ctrl.control == e.control && r.value.ctrl.carryCount == e.carryCount
    ensures e.BooleanLiteral? ==> r == Ok(MkBool(e.bvalue))
    ensures e.NullLiteral? ==> r == Ok(NULLVAL)
    ensures e.CharacterLiteral? ==> r == Ok(CharacterV(e.character))
    // a function expression is a closure-free function value
    ensures e.FunctionExpr? ==> r == Ok(FunctionV(e.parameter, e.fnBody))
    // a name is looked up through the scope chain
    ensures e.Identifier? ==> r == env.GetVar(e.symbol)
    ensures e.PostUnaryExpr? ==> r == Err(if d == Current then HostTypeError else InternalError)
    ensures e.PushExpr? ==> r == Err(InternalError)
  {
    match e
    case NumberLiteral(n) =>
      r, W' := NewNumber(n, env, W);
    case NullLiteral =>
      r, W' := Ok(NULLVAL), W;
    case BooleanLiteral(b) =>
      r, W' := Ok(MkBool(b)), W;
    case StringLiteral(s) =>
      r, W' := NewString(s, env, W);
    case CharacterLiteral(c) =>
      r, W' := Ok(CharacterV(c)), W;
    case ControlLiteral(c, n) =>
      r, W' := NewControl(c, n, env, W);
    case Identifier(name) =>
      r, W' := env.GetVar(name), W;
    case FunctionExpr(ps, body) =>
      r, W' := Ok(FunctionV(ps, body)), W;
    case PostUnaryExpr(_, _) =>
      // evaluator.ts looks the operator up in a table UnaryOp.ts does not export
      r, W' := Err(if d == Current then HostTypeError else InternalError), W;
    case PushExpr(_, _, _) =>
      r, W' := Err(InternalError), W;
  }

  /** Blocks, conditionals, loops and calls. */
  method EvalFlow(d: Dialect, e: Expr, env: Enviroment, ghost W: World, fuel: nat)
    returns (r: Result<Value>, ghost W': World)
    requires Inv(env, W) && IsFlow(e)
    modifies env, W.nums, W.lists, W.ctrls
    ensures Grew(W, W') && Inv(env, W') && ResultIn(r, W')
    ensures |env.evalStack| >= |old(env.evalStack)|
    decreases fuel, 6
  {
    match e
    case BlockLiteral(items) =>
      ghost var trace, carries;
      r, W', trace, carries := EvalBlock(d, items, env, W, fuel);
    case IfExpr(c, t, fb) =>
      ghost var cond, taken, trace, carries;
      r, W', cond, taken, trace, carries := EvalIf(d, c, t, fb, env, W, fuel);
    case WhileExpr(c, body) =>
      ghost var conds, bodies;
      r, W', conds, bodies := EvalLoop(d, None, c, BlockLiteral(body), None, env, W, fuel);
    case ForLoopExpr(init, c, step, body) =>
      ghost var conds, bodies;
      r, W', conds, bodies := EvalLoop(d, Some(init), c, body, Some(step), env, W, fuel);
    case ForEachExpr(t, id, en, body) =>
      ghost var seen, taken, visited, bodies;
      r, W', seen, taken, visited, bodies := EvalForEach(d, t, id, en, body, env, W, fuel);
    case CallExpr(callee, args) =>
      ghost var fv, trace, carries;
      r, W', fv, trace, carries := EvalCall(d, callee, args, env, W, fuel);
  }

  /** Operators, assignments, lists, indexing, shifts, methods, ranges and
      pops; the last three only in evaluator.ts. */
  method EvalOperation(d: Dialect, e: Expr, env: Enviroment, ghost W: World, fuel: nat)
    returns (r: Result<Value>, ghost W': World)
    requires Inv(env, W) && !IsAtom(e) && !IsFlow(e)
    modifies env, W.nums, W.lists, W.ctrls
    ensures Grew(W, W') && Inv(env, W') && ResultIn(r, W')
    ensures |env.evalStack| >= |old(env.evalStack)|
    ensures d == Earlier && (e.MethodExpr? || e.RangeExpr? || e.PopExpr?) ==> r == Err(InternalError)
    decreases fuel, 5
  {
    if d == Earlier && (e.MethodExpr? || e.RangeExpr? || e.PopExpr?) {
      r, W' := Err(InternalError), W;
    } else {
      match e
      case ListLiteral(items) =>
        r, W' := EvalList(d, items, env, W, fuel);
      case BinaryExpr(lhs, rhs, op) =>
        ghost var lv, rv;
        r, W', lv, rv := EvalBinary(d, lhs, rhs, op, env, W, fuel);
      case AssignmentExpr(lhs, rhs, op, _, isConst) =>
        ghost var v;
        r, W', v := EvalAssignment(d, lhs, rhs, op, isConst, env, W, fuel);
      case PreUnaryExpr(x, op) =>
        ghost var operand, before;
        r, W', operand, before := PreUnaryOp(op, x, env, W, fuel);
      case IndexExpr(x, i) =>
        ghost var xv, iv;
        r, W', xv, iv := EvalIndex(d, x, i, env, W, fuel);
      case ShiftExpr(lhs, rhs) =>
        ghost var oldValue, source, written;
        r, W', oldValue, source, written := EvalShift(d, lhs, rhs, env, W, fuel);
      case MethodExpr(x, name, args) =>
        ghost var receiver, argValues;
        r, W', receiver, argValues := EvalMethod(x, name, args, env, W, fuel);
      case RangeExpr(start, end, inclusive, step) =>
        r, W' := EvalRange(start, end, inclusive, step, env, W, fuel);
      case PopExpr(list, index) =>
        ghost var popped, iv, ks, before;
        r, W', popped, iv, ks, before := EvalPop(list, index, env, W, fuel);
    }
  }

  /** The expressions `items` evaluated in order (`items.map(evaluate)`); the
      first failure ends the walk. */
  method EvalItems(d: Dialect, items: seq<Expr>, env: Enviroment, ghost W: World, fuel: nat)
    returns (r: Result<seq<Value>>, ghost W': World)
    requires Inv(env, W)
    modifies env, W.nums, W.lists, W.ctrls
    ensures Grew(W, W') && Inv(env, W')
    ensures |env.evalStack| >= |old(env.evalStack)|
    ensures items == [] ==> r == Ok([])
    ensures r.Ok? ==> |r.value| == |items| && SeqIn(r.value, W')
    decreases fuel, 1
  {
    var vals: seq<Value> := [];
    var failure: Option<ErrorKind> := None;
    W' := W;
    var i := 0;
    while i < |items|
      invariant 0 <= i <= |items| && |vals| == i
      invariant Grew(W, W') && Inv(env, W') && SeqIn(vals, W')
      invariant |env.evalStack| >= |old(env.evalStack)|
    {
      var v;
      v, W' := Evaluate(d, items[i], env, W', fuel);
      if v.Err? {
        failure := Some(v.error);
        break;
      }
      vals := vals + [v.value];
      i := i + 1;
    }
    r := if failure.Some? then Err(failure.value) else Ok(vals);
  }

  /** `evalBlock(block, env)`: the children in order, each result pushed on
      the scope's trace; the first one that exits (`ControlStep`) ends the
      block, a Control value with carry left losing one carry on its way
      out. `trace` holds the children's values, `carries` the carry count
      each had when examined. */
  method EvalBlock(d: Dialect, items: seq<Expr>, env: Enviroment, ghost W: World, fuel: nat)
    returns (r: Result<Value>, ghost W': World, ghost trace: seq<Value>, ghost carries: seq<int>)
    requires Inv(env, W)
    modifies env, W.nums, W.lists, W.ctrls
    ensures Grew(W, W') && Inv(env, W') && ResultIn(r, W')
    ensures |env.evalStack| >= |old(env.evalStack)|
    ensures items == [] ==> r == Ok(NULLVAL)
    // a child worth `undefined` fails the block, so a block that succeeds saw none
    ensures r.Ok? ==> BlockRan(items, r.value, trace, carries) && !r.value.Undefined?
    // each result was pushed; the last one is on top
    ensures r.Ok? ==> |env.evalStack| >= |old(env.evalStack)| + |trace|
    ensures r.Ok? && trace != [] ==> env.evalStack != [] && env.evalStack[0] == trace[|trace| - 1]
    // a Control value leaving with carry has lost exactly one
    ensures r.Ok? && trace != [] && trace[|trace| - 1].ControlV? && carries[|trace| - 1] > 0 ==>
              r.value == trace[|trace| - 1] && r.value.ctrl.carryCount == carries[|trace| - 1] - 1
    decreases fuel, 2
  {
    W', trace, carries := W, [], [];
    var out := NULLVAL;
    var i := 0;
    while i < |items|
      invariant 0 <= i <= |items| && |trace| == |carries| == i
      invariant Grew(W, W') && Inv(env, W')
      invariant |env.evalStack| >= |old(env.evalStack)| + i
      invariant forall k :: 0 <= k < i ==> ControlStep(trace[k], carries[k]).Next? && !trace[k].Undefined?
      invariant out == (if i == 0 then NULLVAL else trace[i - 1]) && ValueIn(out, W')
      invariant i > 0 ==> env.evalStack != [] && env.evalStack[0] == trace[i - 1]
    {
      var v, c, leave;
      ghost var raw;
      v, c, leave, W', raw := BlockChild(d, items[i], env, W', fuel);
      if v.Err? {
        return Err(v.error), W', trace, carries;
      }
      var x := v.value;
      if leave.Some? {
        BlockRanExit(items, trace, carries, x, c);
        trace, carries := trace + [x], carries + [c];
        return Ok(leave.value), W', trace, carries;
      }
      trace, carries := trace + [x], carries + [c];
      out := x;
      i := i + 1;
    }
    BlockRanThrough(items, trace, carries);
    r := Ok(out);
  }

  /** One child of a block: evaluated (`raw`), then `Settle`d. A child worth
      `undefined` is pushed, and then examining it fails on the host. */
  method BlockChild(d: Dialect, e: Expr, env: Enviroment, ghost W: World, fuel: nat)
    returns (v: Result<Value>, c: int, leave: Option<Value>, ghost W': World, ghost raw: Result<Value>)
    requires Inv(env, W)
    modifies env, W.nums, W.lists, W.ctrls
    ensures Grew(W, W') && Inv(env, W') && ResultIn(v, W')
    ensures |env.evalStack| >= |old(env.evalStack)|
    ensures raw.Err? ==> v == raw
    ensures raw.Ok? && raw.value.Undefined? ==>
              v == Err(HostTypeError) && |env.evalStack| > |old(env.evalStack)| && env.evalStack[0] == Undefined
    ensures raw.Ok? && !raw.value.Undefined? ==> v == raw
    ensures v.Ok? ==> !v.value.Undefined?
    ensures v.Ok? ==> |env.evalStack| > |old(env.evalStack)| && env.evalStack[0] == v.value
    ensures v.Ok? ==> (leave.Some? <==> ControlStep(v.value, c).Exit?)
    ensures v.Ok? && leave.Some? ==> leave.value == ControlStep(v.value, c).result
    ensures v.Ok? && leave.Some? && v.value.ControlV? && c > 0 ==> v.value.ctrl.carryCount == c - 1
    decreases fuel, 1
  {
    c, leave := 0, None;
    v, W' := Evaluate(d, e, env, W, fuel);
    raw := v;
    if v.Ok? {
      var ok;
      c, leave, ok := Settle(env, v.value, W');
      if !ok {
        v := Err(HostTypeError);
      }
    }
  }

  /** What a block does with a child's value `x`: pushes it on the trace,
      then examines it; `undefined` cannot be examined (`ok` is false).
      Otherwise it reads the carry count `c` and, when `x` exits
      (`ControlStep`), leaves with `leave`; a Control value with carry left
      loses one on its way out. */
  method Settle(env: Enviroment, x: Value, ghost W: World) returns (c: int, leave: Option<Value>, ok: bool)
    requires Inv(env, W) && ValueIn(x, W)
    modifies env, if x.ControlV? then {x.ctrl} else {}
    ensures Inv(env, W)
    ensures env.evalStack == [x] + old(env.evalStack)
    ensures ok <==> !x.Undefined?
    ensures !ok ==> c == 0 && leave.None?
    ensures c == if x.ControlV? then old(x.ctrl.carryCount) else 0
    ensures ok ==> (leave.Some? <==> ControlStep(x, c).Exit?)
    ensures leave.Some? ==> leave.value == ControlStep(x, c).result
    ensures x.ControlV? ==> x.ctrl.carryCount == if leave.Some? && c > 0 then c - 1 else c
  {
    Push(env, x, W);
    c, leave, ok := 0, None, !x.Undefined?;
    if !ok {
      return;
    }
    c := if x.ControlV? then x.ctrl.carryCount else 0;
    if ControlStep(x, c).Exit? {
      if c > 0 {
        x.ctrl.carryCount := c - 1;
      }
      leave := Some(ControlStep(x, c).result);
    }
  }

  /** `evalListExpr`: the items in order, in a new List. */
  method EvalList(d: Dialect, items: seq<Expr>, env: Enviroment, ghost W: World, fuel: nat)
    returns (r: Result<Value>, ghost W': World)
    requires Inv(env, W)
    modifies env, W.nums, W.lists, W.ctrls
    ensures Grew(W, W') && Inv(env, W') && ResultIn(r, W')
    ensures |env.evalStack| >= |old(env.evalStack)|
    ensures r.Ok? ==> r.value.ListV? && fresh(r.value.list) && |r.value.list.items| == |items|
    decreases fuel, 2
  {
    var vs;
    vs, W' := EvalItems(d, items, env, W, fuel);
    if vs.Err? {
      r := Err(vs.error);
    } else {
      r, W' := NewList(vs.value, env, W');
    }
  }

  /** `evalBinExpr`: both operands, left first, then the table entry for the
      operator; an operator the table lacks fails only after both operands
      were evaluated. `lhs` and `rhs` are the operand values. */
  method EvalBinary(d: Dialect, left: Expr, right: Expr, op: string, env: Enviroment, ghost W: World, fuel: nat)
    returns (r: Result<Value>, ghost W': World, ghost lhs: Value, ghost rhs: Value)
    requires Inv(env, W)
    modifies env, W.nums, W.lists, W.ctrls
    ensures Grew(W, W') && Inv(env, W') && ResultIn(r, W')
    ensures |env.evalStack| >= |old(env.evalStack)|
    ensures r.Ok? ==> ParseOp(op).Some? && BinaryOp(ParseOp(op).value, lhs, rhs).Ok? &&
                      Denotes(r.value, BinaryOp(ParseOp(op).value, lhs, rhs).value)
    ensures r.Ok? && r.value.NumberV? ==> fresh(r.value.num)
    decreases fuel, 1
  {
    lhs, rhs := Undefined, Undefined;
    var a, b;
    a, W' := Evaluate(d, left, env, W, fuel);
    if a.Err? {
      r := Err(a.error);
    } else {
      b, W' := Evaluate(d, right, env, W', fuel);
      if b.Err? {
        r := Err(b.error);
      } else {
        lhs, rhs := a.value, b.value;
        r := Combine(op, a.value, b.value);
        W' := Adopt(r, env, W');
      }
    }
  }

  /** The table entry for `op` applied to two evaluated operands. */
  method Combine(op: string, lhs: Value, rhs: Value) returns (r: Result<Value>)
    ensures r.Ok? <==> ParseOp(op).Some? && BinaryOp(ParseOp(op).value, lhs, rhs).Ok?
    ensures r.Ok? ==> Denotes(r.value, BinaryOp(ParseOp(op).value, lhs, rhs).value)
    ensures r.Ok? ==> r.value.NumberV? || r.value.BooleanV? || r.value.NullV?
    ensures r.Ok? && r.value.NumberV? ==> fresh(r.value.num)
    ensures ParseOp(op).None? ==> r == Err(HostTypeError)
    ensures ParseOp(op).Some? && r.Err? ==> r == Err(BinaryOp(ParseOp(op).value, lhs, rhs).error)
  {
    var o := ParseOp(op);
    if o.None? {
      r := Err(HostTypeError);
    } else {
      var p := BinaryOp(o.value, lhs, rhs);
      if p.Err? {
        r := Err(p.error);
      } else {
        var v := Materialize(p.value);
        r := Ok(v);
      }
    }
  }

  /** The `PreUnaryOp` table entry for `op` (src/runtime/UnaryOp.ts), which
      evaluates its operand with the earlier interpreter. `*`, which shift
      builds and the table lacks, stands for unsigning a name. `operand` is
      the operand's value and `before` its Number payload before the step. */
  method PreUnaryOp(op: string, x: Expr, env: Enviroment, ghost W: World, fuel: nat)
    returns (r: Result<Value>, ghost W': World, ghost operand: Value, ghost before: int)
    requires Inv(env, W)
    modifies env, W.nums, W.lists, W.ctrls
    ensures Grew(W, W') && Inv(env, W') && ResultIn(r, W')
    ensures |env.evalStack| >= |old(env.evalStack)|
    // `*x` reads `x` through the chain and removes this scope's binding of it
    ensures op == "*" && x.Identifier? ==>
              r == old(env.GetVar(x.symbol)) && (r.Ok? ==> x.symbol !in env.variables)
    ensures op == "*" && !x.Identifier? ==> r == Err(HostTypeError)
    ensures op != "*" && ParseUnOp(op).None? ==> r == Err(HostTypeError)
    // otherwise the entry's effect on the operand value: on a Number, by its
    // payload `before`, which `++`/`--` step in place
    ensures r.Ok? && op != "*" ==> ParseUnOp(op).Some? && !operand.Undefined?
    ensures r.Ok? && op != "*" && operand.NumberV? ==>
              operand.num.value == before + NumberEffect(ParseUnOp(op).value, before).delta &&
              Denotes(r.value, NumberEffect(ParseUnOp(op).value, before).result)
    ensures r.Ok? && op != "*" && !operand.NumberV? ==>
              Denotes(r.value, PreUnary(ParseUnOp(op).value, operand).value.result)
    ensures r.Ok? && op != "*" && r.value.NumberV? ==> fresh(r.value.num)
    // for a name, the payload stepped is the one the binding holds
    ensures r.Ok? && op != "*" && x.Identifier? && x.symbol in env.variables ==> env.variables[x.symbol] == operand
    decreases fuel, 2
  {
    operand, before, W' := Undefined, 0, W;
    if op == "*" {
      if !x.Identifier? {
        r := Err(HostTypeError);
      } else {
        r := Unbind(env, x.symbol, W);
      }
    } else {
      var u := ParseUnOp(op);
      if u.None? {
        r := Err(HostTypeError);
      } else {
        r, W', operand, before := StepOperand(u.value, x, env, W, fuel);
      }
    }
  }

  /** A table entry proper: the operand evaluated with the earlier
      interpreter, then `ApplyUnary`. */
  method StepOperand(u: UnOp, x: Expr, env: Enviroment, ghost W: World, fuel: nat)
    returns (r: Result<Value>, ghost W': World, ghost operand: Value, ghost before: int)
    requires Inv(env, W)
    modifies env, W.nums, W.lists, W.ctrls
    ensures Grew(W, W') && Inv(env, W') && ResultIn(r, W')
    ensures |env.evalStack| >= |old(env.evalStack)|
    ensures r.Ok? ==> !operand.Undefined?
    ensures r.Ok? && operand.NumberV? ==>
              operand.num.value == before + NumberEffect(u, before).delta &&
              Denotes(r.value, NumberEffect(u, before).result)
    ensures r.Ok? && !operand.NumberV? ==> Denotes(r.value, PreUnary(u, operand).value.result)
    ensures r.Ok? && r.value.NumberV? ==> fresh(r.value.num)
    ensures r.Ok? && x.Identifier? && x.symbol in env.variables ==> env.variables[x.symbol] == operand
    decreases fuel, 1
  {
    operand, before := Undefined, 0;
    var v;
    v, W' := Evaluate(Earlier, x, env, W, fuel);
    if v.Err? {
      r := Err(v.error);
    } else {
      operand := v.value;
      r, before := ApplyUnary(u, v.value);
      W' := Adopt(r, env, W');
    }
  }

  /** The table entry `u` on an evaluated operand `v`; `before` is the
      operand's payload when it is a Number. */
  method ApplyUnary(u: UnOp, v: Value) returns (r: Result<Value>, ghost before: int)
    modifies if v.NumberV? then {v.num} else {}
    ensures v.NumberV? ==> before == old(v.num.value)
    ensures r.Err? <==> v.Undefined?
    ensures r.Err? ==> r.error == HostTypeError
    ensures r.Ok? ==> r.value.NumberV? || r.value.BooleanV? || r.value.NullV?
    ensures r.Ok? && v.NumberV? ==>
              v.num.value == before + NumberEffect(u, before).delta && Denotes(r.value, NumberEffect(u, before).result)
    ensures r.Ok? && !v.NumberV? ==> Denotes(r.value, PreUnary(u, v).value.result)
    ensures r.Ok? && r.value.NumberV? ==> fresh(r.value.num)
  {
    before := if v.NumberV? then v.num.value else 0;
    var eff := PreUnary(u, v);
    if eff.Err? {
      r := Err(eff.error);
    } else {
      if eff.value.delta != 0 {
        v.num.value := v.num.value + eff.value.delta;
      }
      var res := Materialize(eff.value.result);
      r := Ok(res);
    }
  }

  /** `evalIfExpr`: a Boolean condition selects exactly one branch, whose
      block value is the result. `cond` is the condition's outcome, `taken`
      the branch evaluated, and `trace`/`carries` that block's run. */
  method EvalIf(d: Dialect, c: Expr, t: seq<Expr>, fb: seq<Expr>, env: Enviroment, ghost W: World, fuel: nat)
    returns (r: Result<Value>, ghost W': World, ghost cond: Result<Value>, ghost taken: seq<Expr>,
             ghost trace: seq<Value>, ghost carries: seq<int>)
    requires Inv(env, W)
    modifies env, W.nums, W.lists, W.ctrls
    ensures Grew(W, W') && Inv(env, W') && ResultIn(r, W')
    ensures |env.evalStack| >= |old(env.evalStack)|
    ensures cond.Err? ==> r == Err(cond.error)
    ensures cond.Ok? && cond.value.Undefined? ==> r == Err(HostTypeError)
    ensures cond.Ok? && !cond.value.Undefined? && !cond.value.BooleanV? ==> r == Err(TypeError)
    ensures cond.Ok? && cond.value.BooleanV? ==> taken == (if cond.value.b then t else fb)
    ensures r.Ok? ==> cond.Ok? && cond.value.BooleanV?
    // the result is the taken branch's block value
    ensures cond.Ok? && cond.value.BooleanV? && taken == [] ==> r == Ok(NULLVAL)
    ensures r.Ok? ==> BlockRan(taken, r.value, trace, carries)
    ensures r.Ok? && trace != [] ==> env.evalStack != [] && env.evalStack[0] == trace[|trace| - 1]
    decreases fuel, 3
  {
    taken, trace, carries := [], [], [];
    var cv;
    cv, W' := Evaluate(d, c, env, W, fuel);
    cond := cv;
    if cv.Err? {
      r := Err(cv.error);
    } else if cv.value.Undefined? {
      r := Err(HostTypeError);
    } else if !cv.value.BooleanV? {
      r := Err(TypeError);
    } else {
      var branch := if cv.value.b then t else fb;
      taken := branch;
      r, W', trace, carries := EvalBlock(d, branch, env, W', fuel);
    }
  }

  /** How one round of a counted loop ended. */
  datatype RoundEnd = Failed(error: ErrorKind) | ConditionFalse | BodyNull | Finished

  /** The failure a loop condition's outcome `c` causes: its own error, a
      host TypeError for `undefined`, a TypeError for any other non-Boolean;
      none for a Boolean. */
  function ConditionFailure(c: Result<Value>): Option<ErrorKind> {
    if c.Err? then Some(c.error)
    else if c.value.Undefined? then Some(HostTypeError)
    else if !c.value.BooleanV? then Some(TypeError)
    else None
  }

  /** The condition outcomes `conds` and body values `bodies` of the rounds
      of a counted loop: every condition but the last was true and its body
      ran; the body of the last round ran only if its condition was true. */
  predicate RoundsLog(conds: seq<Result<Value>>, bodies: seq<Value>) {
    && conds != []
    && (forall k :: 0 <= k < |conds| - 1 ==> conds[k] == Ok(TRUEVAL))
    && |conds| - 1 <= |bodies| <= |conds|
    && (conds[|conds| - 1] != Ok(TRUEVAL) ==> |bodies| == |conds| - 1)
  }

  /** `evalWhileExpr` (no `init`, no `step`) and the traditional branch of
      `evalForExpr`: the condition must be a Boolean; a false condition or a
      Null body value ends the loop; the result is a new Number counting the
      completed iterations, and the 5001st completed iteration fails.
      `conds` are the condition outcomes and `bodies` the body values, in
      order; both are empty when `init` fails. */
  method EvalLoop(d: Dialect, init: Option<Expr>, c: Expr, body: Expr, step: Option<Expr>,
                  env: Enviroment, ghost W: World, fuel: nat)
    returns (r: Result<Value>, ghost W': World, ghost conds: seq<Result<Value>>, ghost bodies: seq<Value>)
    requires Inv(env, W)
    modifies env, W.nums, W.lists, W.ctrls
    ensures Grew(W, W') && Inv(env, W') && ResultIn(r, W')
    ensures |env.evalStack| >= |old(env.evalStack)|
    ensures init.None? ==> conds != []
    ensures conds == [] ==> r.Err? && bodies == []
    ensures conds != [] ==> RoundsLog(conds, bodies)
    // the last condition decides a failure, or a false one ends the loop
    ensures conds != [] && ConditionFailure(conds[|conds| - 1]).Some? ==>
              r == Err(ConditionFailure(conds[|conds| - 1]).value)
    ensures conds != [] && conds[|conds| - 1] == Ok(FALSEVAL) ==> r.Ok?
    ensures |bodies| <= LOOP_LIMIT + 1
    // only the last body value may be Null
    ensures forall k :: 0 <= k < |bodies| - 1 ==> bodies[k] != NULLVAL
    ensures r.Ok? ==> r.value.NumberV? && fresh(r.value.num) && r.value.num.value == Completed(bodies) <= LOOP_LIMIT
    // a loop that completes more iterations than the budget fails
    ensures |bodies| == LOOP_LIMIT + 1 && bodies[LOOP_LIMIT] != NULLVAL ==> r.Err?
    ensures |bodies| == LOOP_LIMIT + 1 && bodies[LOOP_LIMIT] != NULLVAL && step.None? ==> r == Err(LoopLimit)
    decreases fuel, 4
  {
    W', conds, bodies := W, [], [];
    var iv := Ok(NULLVAL);
    if init.Some? {
      iv, W' := Evaluate(d, init.value, env, W, fuel);
    }
    if iv.Err? {
      r := Err(iv.error);
    } else {
      r, W', conds, bodies := Rounds(d, c, body, step, env, W', fuel);
    }
  }

  /** The rounds of a counted loop, after `init`. */
  method Rounds(d: Dialect, c: Expr, body: Expr, step: Option<Expr>, env: Enviroment, ghost W: World, fuel: nat)
    returns (r: Result<Value>, ghost W': World, ghost conds: seq<Result<Value>>, ghost bodies: seq<Value>)
    requires Inv(env, W)
    modifies env, W.nums, W.lists, W.ctrls
    ensures Grew(W, W') && Inv(env, W') && ResultIn(r, W')
    ensures |env.evalStack| >= |old(env.evalStack)|
    ensures RoundsLog(conds, bodies)
    ensures ConditionFailure(conds[|conds| - 1]).Some? ==> r == Err(ConditionFailure(conds[|conds| - 1]).value)
    ensures conds[|conds| - 1] == Ok(FALSEVAL) ==> r.Ok?
    ensures |bodies| <= LOOP_LIMIT + 1
    ensures forall k :: 0 <= k < |bodies| - 1 ==> bodies[k] != NULLVAL
    ensures r.Ok? ==> r.value.NumberV? && fresh(r.value.num) && r.value.num.value == Completed(bodies) <= LOOP_LIMIT
    ensures |bodies| == LOOP_LIMIT + 1 && bodies[LOOP_LIMIT] != NULLVAL ==> r.Err?
    ensures |bodies| == LOOP_LIMIT + 1 && bodies[LOOP_LIMIT] != NULLVAL && step.None? ==> r == Err(LoopLimit)
    decreases fuel, 3
  {
    var failure: Option<ErrorKind>;
    var i;
    failure, i, conds, bodies, W' := Spin(d, c, body, step, env, W, fuel);
    if failure.Some? {
      r := Err(failure.value);
    } else {
      r, W' := NewNumber(i, env, W');
    }
  }

  /** The loop of `Rounds`: `i` counts the completed iterations. */
  method Spin(d: Dialect, c: Expr, body: Expr, step: Option<Expr>, env: Enviroment, ghost W: World, fuel: nat)
    returns (failure: Option<ErrorKind>, i: nat, ghost conds: seq<Result<Value>>, ghost bodies: seq<Value>,
             ghost W': World)
    requires Inv(env, W)
    modifies env, W.nums, W.lists, W.ctrls
    ensures Grew(W, W') && Inv(env, W')
    ensures |env.evalStack| >= |old(env.evalStack)|
    ensures RoundsLog(conds, bodies)
    ensures ConditionFailure(conds[|conds| - 1]).Some? ==> failure == ConditionFailure(conds[|conds| - 1])
    ensures conds[|conds| - 1] == Ok(FALSEVAL) ==> failure.None?
    ensures |bodies| <= LOOP_LIMIT + 1
    ensures forall k :: 0 <= k < |bodies| - 1 ==> bodies[k] != NULLVAL
    ensures failure.None? ==> i == Completed(bodies) <= LOOP_LIMIT
    ensures |bodies| == LOOP_LIMIT + 1 && bodies[LOOP_LIMIT] != NULLVAL ==> failure.Some?
    ensures |bodies| == LOOP_LIMIT + 1 && bodies[LOOP_LIMIT] != NULLVAL && step.None? ==> failure == Some(LoopLimit)
    decreases fuel, 2
  {
    W', conds, bodies := W, [], [];
    failure := None;
    i := 0;
    while true
      invariant 0 <= i == |bodies| == |conds| <= LOOP_LIMIT
      invariant forall k :: 0 <= k < |conds| ==> conds[k] == Ok(TRUEVAL)
      invariant Grew(W, W') && Inv(env, W')
      invariant |env.evalStack| >= |old(env.evalStack)|
      invariant forall k :: 0 <= k < |bodies| ==> bodies[k] != NULLVAL
      invariant failure.None?
      decreases LOOP_LIMIT - i
    {
      var o;
      ghost var cond, ran, bv;
      o, cond, ran, bv, W' := Round(d, c, body, step, env, W', fuel);
      conds := conds + [cond];
      if ran {
        bodies := bodies + [bv];
      }
      if o.Failed? {
        failure := Some(o.error);
        break;
      }
      if !o.Finished? {
        break;
      }
      if i == LOOP_LIMIT {
        failure := Some(LoopLimit);
        break;
      }
      i := i + 1;
    }
  }

  /** One round: the condition (outcome `cond`), then (when it is true) the
      body, then (when the body value is not Null) the step. `ran` says
      whether the body was evaluated, `bodyValue` is its value. */
  method Round(d: Dialect, c: Expr, body: Expr, step: Option<Expr>, env: Enviroment, ghost W: World, fuel: nat)
    returns (o: RoundEnd, ghost cond: Result<Value>, ghost ran: bool, ghost bodyValue: Value, ghost W': World)
    requires Inv(env, W)
    modifies env, W.nums, W.lists, W.ctrls
    ensures Grew(W, W') && Inv(env, W')
    ensures |env.evalStack| >= |old(env.evalStack)|
    // a condition that is not a Boolean fails the round before the body
    ensures ConditionFailure(cond).Some? ==> o == Failed(ConditionFailure(cond).value) && !ran
    // a false condition, and only that, ends the loop quietly
    ensures o == ConditionFalse <==> cond == Ok(FALSEVAL)
    ensures o == ConditionFalse ==> !ran
    // the body runs exactly when the condition is true, unless it fails
    ensures ran ==> cond == Ok(TRUEVAL)
    ensures cond == Ok(TRUEVAL) ==> ran || o.Failed?
    ensures o == BodyNull <==> ran && bodyValue == NULLVAL
    ensures o == Finished ==> ran && bodyValue != NULLVAL
    ensures ran && bodyValue != NULLVAL && step.None? ==> o == Finished
    decreases fuel, 1
  {
    ran, bodyValue := false, NULLVAL;
    var cv;
    cv, W' := Evaluate(d, c, env, W, fuel);
    cond := cv;
    if cv.Err? {
      o := Failed(cv.error);
    } else if cv.value.Undefined? {
      o := Failed(HostTypeError);
    } else if !cv.value.BooleanV? {
      o := Failed(TypeError);
    } else if !cv.value.b {
      o := ConditionFalse;
    } else {
      var bv;
      bv, W' := Evaluate(d, body, env, W', fuel);
      if bv.Err? {
        o := Failed(bv.error);
      } else {
        ran, bodyValue := true, bv.value;
        if bv.value == NULLVAL {
          o := BodyNull;
        } else if step.None? {
          o := Finished;
        } else {
          var sv;
          sv, W' := Evaluate(d, step.value, env, W', fuel);
          o := if sv.Err? then Failed(sv.error) else Finished;
        }
      }
    }
  }

  /** The for-in and for-of branches of `evalForExpr`. For-in walks a new
      List of the indices `0 .. length-1` taken once; for-of walks the List's
      own backing array as it changes. Each element is bound (non-constant)
      to the loop variable in this scope before the body runs; a Null body
      value stops early; the variable is unsigned afterwards; the result is
      a new Number holding the length of the sequence walked, at the end.
      `enumerated` is the enumerable's value and `taken` its length once
      evaluated; `visited` and `bodies` are the walk's log (`WalkLog`). */
  method EvalForEach(d: Dialect, t: ForLoopType, id: string, en: Expr, body: Expr,
                     env: Enviroment, ghost W: World, fuel: nat)
    returns (r: Result<Value>, ghost W': World, ghost enumerated: Value, ghost taken: nat,
             ghost visited: seq<Value>, ghost bodies: seq<Value>)
    requires Inv(env, W)
    modifies env, W.nums, W.lists, W.ctrls
    ensures Grew(W, W') && Inv(env, W') && ResultIn(r, W')
    ensures |env.evalStack| >= |old(env.evalStack)|
    // a traditional loop never takes this branch: its missing `init` fails
    ensures t == Traditional ==> r == Err(HostTypeError)
    ensures r.Ok? ==> enumerated.ListV? && r.value.NumberV? && fresh(r.value.num)
    ensures r.Ok? && t == Of ==> r.value.num.value == |enumerated.list.items|
    // for-in answers the length taken at the start, even after an early stop
    ensures r.Ok? && t == In ==> r.value.num.value == taken && |visited| <= taken
    // the loop variable is gone from this scope afterwards
    ensures r.Ok? ==> id !in env.variables
    // one body value per element visited; only a Null one stops the walk early
    ensures WalkLog(visited, bodies, r.Err?)
    ensures r.Ok? ==> |visited| == |bodies|
    ensures r.Ok? && !StoppedByNull(bodies) ==>
              if t == In then |visited| == taken else |visited| >= |enumerated.list.items|
    decreases fuel, 5
  {
    enumerated, taken, W', visited, bodies := Undefined, 0, W, [], [];
    if t == Traditional {
      r := Err(HostTypeError);
    } else {
      var ev;
      ev, W' := Evaluate(d, en, env, W, fuel);
      if ev.Err? {
        r := Err(ev.error);
      } else if ev.value.Undefined? {
        r := Err(HostTypeError);
      } else if !ev.value.ListV? {
        r := Err(TypeError);
      } else {
        enumerated, taken := ev.value, |ev.value.list.items|;
        r, W', visited, bodies := ForList(d, t == In, id, ev.value.list, body, env, W', fuel);
      }
    }
  }

  /** The log of a for-in or for-of walk: `bodies` holds the body value of
      each element in `visited` that got one. Only a failure leaves the last
      element without one, and every body value but the last is not Null. */
  predicate WalkLog(visited: seq<Value>, bodies: seq<Value>, failed: bool) {
    && |bodies| <= |visited| <= |bodies| + 1
    && (|visited| == |bodies| + 1 ==> failed)
    && (forall k :: 0 <= k < |bodies| - 1 ==> bodies[k] != NULLVAL)
  }

  /** The walk ended on a Null body value (`if (bodyVal === NULLVAL) break`). */
  predicate StoppedByNull(bodies: seq<Value>) {
    bodies != [] && bodies[|bodies| - 1] == NULLVAL
  }

  /** A for-in (`isIn`) or for-of loop over a List. */
  method ForList(d: Dialect, isIn: bool, id: string, list: ListBox, body: Expr,
                 env: Enviroment, ghost W: World, fuel: nat)
    returns (r: Result<Value>, ghost W': World, ghost visited: seq<Value>, ghost bodies: seq<Value>)
    requires Inv(env, W) && list in W.lists
    modifies env, W.nums, W.lists, W.ctrls
    ensures Grew(W, W') && Inv(env, W') && ResultIn(r, W')
    ensures |env.evalStack| >= |old(env.evalStack)|
    ensures r.Ok? ==> r.value.NumberV? && fresh(r.value.num) && id !in env.variables
    ensures r.Ok? && !isIn ==> r.value.num.value == |list.items|
    // for-in answers the number of indices taken at the start, even after an early stop
    ensures r.Ok? && isIn ==> r.value.num.value == old(|list.items|)
    ensures WalkLog(visited, bodies, r.Err?)
    ensures r.Ok? ==> |visited| == |bodies|
    // for-in visits the indices taken at the start, in order
    ensures isIn ==> |visited| <= old(|list.items|) &&
                     forall k :: 0 <= k < |visited| ==> visited[k].NumberV? && fresh(visited[k].num)
    ensures r.Ok? && !StoppedByNull(bodies) ==>
              if isIn then |visited| == old(|list.items|) == r.value.num.value else |visited| >= |list.items|
    decreases fuel, 4
  {
    var indices: seq<Value> := [];
    W' := W;
    if isIn {
      indices, W' := Indices(list, env, W);
    }
    var o, count;
    o, count, W', visited, bodies := Walk(d, id, isIn, indices, list, body, env, W', fuel);
    if o.Fail? {
      r := Err(o.error);
    } else {
      r, W' := Unwind(env, id, count, W');
    }
  }

  /** `enumerate()` of a List: new Numbers for the indices of its backing
      array, taken once. */
  method Indices(list: ListBox, env: Enviroment, ghost W: World) returns (r: seq<Value>, ghost W': World)
    requires Inv(env, W)
    ensures |r| == |list.items|
    ensures forall i :: 0 <= i < |r| ==> r[i].NumberV? && r[i].num.value == i && fresh(r[i].num)
    ensures Grew(W, W') && Inv(env, W') && SeqIn(r, W') && W'.lists == W.lists
  {
    r := Enumerate(list);
    W' := AddNums(W, r);
    InvGrow(env, W, W');
  }

  /** The walk of a for-in loop (over `indices`) or a for-of loop (over
      `list`'s backing array, whose length is read again at every step),
      binding each element to `id` and running the body, until the end or a
      Null body value. `count` is the length of what was walked, at the end;
      `visited` holds the elements visited and `bodies` their body values. */
  method Walk(d: Dialect, id: string, isIn: bool, indices: seq<Value>, list: ListBox, body: Expr,
              env: Enviroment, ghost W: World, fuel: nat)
    returns (o: Outcome, count: nat, ghost W': World, ghost visited: seq<Value>, ghost bodies: seq<Value>)
    requires Inv(env, W) && SeqIn(indices, W) && list in W.lists
    modifies env, W.nums, W.lists, W.ctrls
    ensures Grew(W, W') && Inv(env, W')
    ensures |env.evalStack| >= |old(env.evalStack)|
    ensures o.Pass? ==> count == if isIn then |indices| else |list.items|
    ensures WalkLog(visited, bodies, o.Fail?)
    ensures o.Pass? ==> |visited| == |bodies|
    // a for-in walk visits a prefix of the indices, in order
    ensures isIn ==> |visited| <= |indices| && visited == indices[..|visited|]
    // a walk that was not stopped by a Null body went to the end
    ensures o.Pass? && !StoppedByNull(bodies) ==>
              if isIn then |visited| == |indices| else |visited| >= |list.items|
    decreases fuel, 3
  {
    W', o, count, visited, bodies := W, Pass, 0, [], [];
    var k := 0;
    var budget := fuel;
    while if isIn then k < |indices| else k < |list.items|
      invariant k == |visited| == |bodies|
      invariant isIn ==> k <= |indices| && visited == indices[..k]
      invariant forall j :: 0 <= j < |bodies| ==> bodies[j] != NULLVAL
      invariant o == Pass
      invariant Grew(W, W') && Inv(env, W') && list in W'.lists && SeqIn(indices, W')
      invariant |env.evalStack| >= |old(env.evalStack)|
      decreases if isIn then |indices| - k else budget
    {
      if !isIn {
        if budget == 0 {
          o := Fail(OutOfFuel);
          break;
        }
        budget := budget - 1;
      }
      var stop;
      o, stop, W', visited, bodies := WalkStep(d, id, isIn, indices, list, body, k, visited, bodies, env, W', fuel);
      if o.Fail? || stop {
        break;
      }
      k := k + 1;
    }
    count := if isIn then |indices| else |list.items|;
  }

  /** The `k`-th element of a walk (the `k`-th index, or what the backing
      array holds at `k` now) visited, and the walk's log extended by it and
      by its body value, if any. */
  method WalkStep(d: Dialect, id: string, isIn: bool, indices: seq<Value>, list: ListBox, body: Expr, k: nat,
                  ghost visited: seq<Value>, ghost bodies: seq<Value>, env: Enviroment, ghost W: World, fuel: nat)
    returns (o: Outcome, stop: bool, ghost W': World, ghost visited': seq<Value>, ghost bodies': seq<Value>)
    requires Inv(env, W) && SeqIn(indices, W) && list in W.lists
    requires if isIn then k < |indices| else k < |list.items|
    requires k == |visited| == |bodies| && (isIn ==> visited == indices[..k])
    requires forall j :: 0 <= j < |bodies| ==> bodies[j] != NULLVAL
    modifies env, W.nums, W.lists, W.ctrls
    ensures Grew(W, W') && Inv(env, W') && list in W'.lists && SeqIn(indices, W')
    ensures |env.evalStack| >= |old(env.evalStack)|
    ensures visited' == visited + [if isIn then indices[k] else old(list.items[k])]
    ensures isIn ==> visited' == indices[..k + 1]
    // a body value is logged when the body ran; only a Null one stops the walk
    ensures WalkLog(visited', bodies', o.Fail?)
    ensures o.Pass? ==> |bodies'| == k + 1 && bodies'[..k] == bodies && (stop <==> bodies'[k] == NULLVAL)
    ensures o.Fail? ==> bodies' == bodies && !stop
    ensures stop ==> StoppedByNull(bodies')
    ensures o.Pass? && !stop ==> forall j :: 0 <= j < |bodies'| ==> bodies'[j] != NULLVAL
    decreases fuel, 2
  {
    var elem := if isIn then indices[k] else list.items[k];
    assert ValueIn(elem, W);
    ghost var scope, bodyResult;
    o, stop, W', scope, bodyResult := Visit(d, id, elem, body, env, W, fuel);
    SeqInMono(indices, W, W');
    assert isIn ==> indices[..k + 1] == indices[..k] + [elem];
    visited' := visited + [elem];
    bodies' := if o.Pass? then bodies + [bodyResult.value] else bodies;
  }

  /** One element of a for-in or for-of loop: bound (non-constant) to `id`,
      then the body; a Null body value stops the loop. `scope` is this
      scope's bindings once `elem` is bound, and `bodyResult` the body's
      result. */
  method Visit(d: Dialect, id: string, elem: Value, body: Expr, env: Enviroment, ghost W: World, fuel: nat)
    returns (o: Outcome, stop: bool, ghost W': World, ghost scope: map<string, Value>, ghost bodyResult: Result<Value>)
    requires Inv(env, W) && ValueIn(elem, W)
    modifies env, W.nums, W.lists, W.ctrls
    ensures Grew(W, W') && Inv(env, W')
    ensures |env.evalStack| >= |old(env.evalStack)|
    ensures id in old(env.constances) ==> o == Fail(ConstantError) && !stop
    // otherwise the element is bound to the loop variable before the body runs
    ensures id !in old(env.constances) ==> scope == old(env.variables)[id := elem]
    ensures id !in old(env.constances) && bodyResult.Err? ==> o == Fail(bodyResult.error) && !stop
    ensures id !in old(env.constances) && bodyResult.Ok? ==> o == Pass
    // a Null body value, and only that, stops the loop
    ensures o.Pass? ==> bodyResult.Ok? && (stop <==> bodyResult.value == NULLVAL)
    ensures stop ==> o.Pass?
    decreases fuel, 1
  {
    W', stop, scope, bodyResult := W, false, env.variables, Ok(Undefined);
    var a := Bind(env, id, elem, false, W);
    if a.Err? {
      o := Fail(a.error);
    } else {
      scope := env.variables;
      var bv;
      bv, W' := Evaluate(d, body, env, W, fuel);
      bodyResult := bv;
      if bv.Err? {
        o := Fail(bv.error);
      } else {
        o, stop := Pass, bv.value == NULLVAL;
      }
    }
  }

  /** The end of a for-in or for-of loop: `id` is unsigned, then a new
      Number holding `count`. */
  method Unwind(env: Enviroment, id: string, count: nat, ghost W: World) returns (r: Result<Value>, ghost W': World)
    requires Inv(env, W)
    modifies env
    ensures Grew(W, W') && Inv(env, W') && ResultIn(r, W')
    ensures env.evalStack == old(env.evalStack)
    ensures old(env.GetVar(id)).Err? ==> r == Err(ReferenceError)
    ensures old(env.GetVar(id)).Ok? ==>
              r.Ok? && r.value.NumberV? && fresh(r.value.num) && r.value.num.value == count && id !in env.variables
  {
    var u := Unbind(env, id, W);
    if u.Err? {
      r, W' := Err(u.error), W;
    } else {
      r, W' := NewNumber(count, env, W);
    }
  }

  /** `evalCallExpr`: the arguments left to right, then the callee. A
      Function needs exactly as many arguments as parameters; each parameter
      is bound (non-constant) in the caller's own scope, where the body block
      then runs. A native function is opaque (`NativeCall`). Anything else is
      a TypeError. `callee` is the callee's value. */
  method EvalCall(d: Dialect, c: Expr, args: seq<Expr>, env: Enviroment, ghost W: World, fuel: nat)
    returns (r: Result<Value>, ghost W': World, ghost callee: Value, ghost trace: seq<Value>, ghost carries: seq<int>)
    requires Inv(env, W)
    modifies env, W.nums, W.lists, W.ctrls
    ensures Grew(W, W') && Inv(env, W') && ResultIn(r, W')
    ensures |env.evalStack| >= |old(env.evalStack)|
    ensures r.Ok? ==> callee.FunctionV? || callee.NativeFunctionV?
    ensures r.Ok? && callee.FunctionV? ==> |callee.parameter| == |args|
    ensures r.Ok? && callee.FunctionV? ==> BlockRan(callee.body, r.value, trace, carries)
    decreases fuel, 4
  {
    callee, trace, carries := Undefined, [], [];
    var vs;
    vs, W' := EvalItems(d, args, env, W, fuel);
    if vs.Err? {
      r := Err(vs.error);
    } else {
      var fv;
      fv, W' := Evaluate(d, c, env, W', fuel);
      if fv.Err? {
        r := Err(fv.error);
      } else {
        callee := fv.value;
        SeqInMono(vs.value, W', W');
        r, W', trace, carries := Apply(d, fv.value, vs.value, env, W', fuel);
      }
    }
  }

  /** Applying an evaluated callee to evaluated arguments. A Function binds
      its parameters in the caller's scope and is worth its body block's
      value (`trace`/`carries` are that block's run). */
  method Apply(d: Dialect, f: Value, vals: seq<Value>, env: Enviroment, ghost W: World, fuel: nat)
    returns (r: Result<Value>, ghost W': World, ghost trace: seq<Value>, ghost carries: seq<int>)
    requires Inv(env, W) && SeqIn(vals, W)
    modifies env, W.nums, W.lists, W.ctrls
    ensures Grew(W, W') && Inv(env, W') && ResultIn(r, W')
    ensures |env.evalStack| >= |old(env.evalStack)|
    ensures f.Undefined? ==> r == Err(HostTypeError)
    ensures !(f.FunctionV? || f.NativeFunctionV? || f.Undefined?) ==> r == Err(TypeError)
    ensures f.FunctionV? && |vals| != |f.parameter| ==> r == Err(ArityError)
    // a parameter held as a constant in this scope fails the call
    ensures f.FunctionV? && |vals| == |f.parameter| && (exists j :: 0 <= j < |vals| && f.parameter[j] in old(env.constances)) ==>
              r == Err(ConstantError)
    // otherwise the call is worth its body block
    ensures f.FunctionV? && r.Ok? ==> BlockRan(f.body, r.value, trace, carries)
    ensures f.FunctionV? && |vals| == |f.parameter| && f.body == [] &&
              (forall j :: 0 <= j < |vals| ==> f.parameter[j] !in old(env.constances)) ==>
              r == Ok(NULLVAL)
    decreases fuel, 3
  {
    W', trace, carries := W, [], [];
    match f
    case Undefined =>
      r := Err(HostTypeError);
    case FunctionV(ps, body) =>
      if |vals| != |ps| {
        r := Err(ArityError);
      } else {
        var o := BindAll(env, ps, vals, W);
        if o.Fail? {
          r := Err(o.error);
        } else {
          r, W', trace, carries := EvalBlock(d, body, env, W, fuel);
        }
      }
    case NativeFunctionV(name) =>
      r, W' := NativeCall(name, vals, env, W);
    case _ =>
      r := Err(TypeError);
  }

  /** The bindings `m` after binding each `ps[j]` to `vals[j]`, left to
      right, as a call binds its parameters. */
  function BindEach(m: map<string, Value>, ps: seq<string>, vals: seq<Value>): map<string, Value>
    requires |ps| == |vals|
    decreases |ps|
  {
    if ps == [] then m
    else BindEach(m, ps[..|ps| - 1], vals[..|vals| - 1])[ps[|ps| - 1] := vals[|vals| - 1]]
  }

  /** Binding parameters keeps every other name and adds each parameter;
      a parameter named once more later gets the later argument, so the
      last occurrence of each name wins. */
  lemma {:induction false} BindEachLastWins(m: map<string, Value>, ps: seq<string>, vals: seq<Value>, j: int)
    requires |ps| == |vals| && 0 <= j < |ps|
    requires forall k :: j < k < |ps| ==> ps[k] != ps[j]
    ensures ps[j] in BindEach(m, ps, vals) && BindEach(m, ps, vals)[ps[j]] == vals[j]
    decreases |ps|
  {
    if j < |ps| - 1 {
      var n := |ps| - 1;
      assert forall k :: j < k < n ==> ps[..n][k] == ps[k];
      BindEachLastWins(m, ps[..n], vals[..n], j);
    }
  }

  /** Names that are not parameters keep their bindings. */
  lemma {:induction false} BindEachOthers(m: map<string, Value>, ps: seq<string>, vals: seq<Value>, x: string)
    requires |ps| == |vals| && x !in ps
    ensures (x in BindEach(m, ps, vals) <==> x in m)
    ensures x in m ==> BindEach(m, ps, vals)[x] == m[x]
    decreases |ps|
  {
    if ps != [] {
      var n := |ps| - 1;
      assert x !in ps[..n] by {
        forall k | 0 <= k < n ensures ps[..n][k] != x {
          assert ps[..n][k] == ps[k];
        }
      }
      BindEachOthers(m, ps[..n], vals[..n], x);
    }
  }

  /** Binds each parameter to its argument, non-constant, in this scope,
      left to right; a parameter this scope holds as a constant fails. */
  method BindAll(env: Enviroment, ps: seq<string>, vals: seq<Value>, ghost W: World) returns (o: Outcome)
    requires Inv(env, W) && SeqIn(vals, W) && |ps| == |vals|
    modifies env
    ensures Inv(env, W) && env.evalStack == old(env.evalStack)
    ensures env.constances == old(env.constances)
    ensures o.Pass? <==> forall j :: 0 <= j < |ps| ==> ps[j] !in old(env.constances)
    ensures o.Pass? ==> env.variables == BindEach(old(env.variables), ps, vals)
    ensures o.Fail? ==> o.error == ConstantError
  {
    o := Pass;
    var j := 0;
    while j < |ps|
      invariant 0 <= j <= |ps|
      invariant Inv(env, W) && env.evalStack == old(env.evalStack)
      invariant env.constances == old(env.constances)
      invariant forall k :: 0 <= k < j ==> ps[k] !in env.constances
      invariant env.variables == BindEach(old(env.variables), ps[..j], vals[..j])
    {
      var a := Bind(env, ps[j], vals[j], false, W);
      if a.Err? {
        o := Fail(a.error);
        return;
      }
      assert ps[..j + 1][..j] == ps[..j] && vals[..j + 1][..j] == vals[..j];
      j := j + 1;
    }
    assert ps[..j] == ps && vals[..j] == vals;
  }

  /** A native function, opaque: any failure, or a value among Null, a
      Boolean, a new Number, a new List of the arguments, or one of the
      arguments. Like `set`, it may bind a name in the caller's scope; its
      frame allows any other change to the scope and the world's values. */
  method NativeCall(name: string, args: seq<Value>, env: Enviroment, ghost W: World)
    returns (r: Result<Value>, ghost W': World)
    requires Inv(env, W) && SeqIn(args, W)
    modifies env, W.nums, W.lists, W.ctrls
    ensures Grew(W, W') && Inv(env, W') && ResultIn(r, W')
    ensures |env.evalStack| >= |old(env.evalStack)|
    ensures forall l :: l in W'.lists && l !in W.lists ==> StoreIn(StoreOf(l), W')
    ensures r.Ok? && r.value.NumberV? && r.value.num !in W.nums ==> fresh(r.value.num)
  {
    var shape: int := *;
    var payload: int := *;
    W' := W;
    if shape <= 0 {
      r := Err(RuntimeError);
    } else if shape == 1 {
      r := Ok(NULLVAL);
    } else if shape == 2 {
      r := Ok(MkBool(payload % 2 == 0));
    } else if shape == 3 {
      var box := new NumberBox(payload);
      r, W' := Ok(NumberV(box)), AddNum(W, box);
      InvGrow(env, W, W');
    } else if shape == 4 {
      var box := new ListBox(args);
      r, W' := Ok(ListV(box)), AddList(W, box);
      SeqInMono(args, W, W');
      InvGrow(env, W, W');
    } else if args == [] {
      r := Ok(NULLVAL);
    } else if shape == 5 {
      var target: string := *;
      r := Bind(env, target, args[payload % |args|], payload % 2 == 0, W);
    } else {
      r := Ok(args[payload % |args|]);
    }
  }

  /** `evalAssignmentExpr`. The left side must be a name or an index
      expression. A compound operator makes the right side
      `BinaryExpr(left, right, op)`. The right side's value is probed for an
      `isConst` flag, which `undefined` cannot have. A name is bound in this
      scope; an index write goes to the List (several indices in
      evaluator.ts, one in interpreter.ts). `written` is the value written,
      which is the result. */
  method EvalAssignment(d: Dialect, lhs: Expr, rhs: Expr, op: Option<string>, isConst: bool,
                        env: Enviroment, ghost W: World, fuel: nat)
    returns (r: Result<Value>, ghost W': World, ghost written: Value)
    requires Inv(env, W)
    modifies env, W.nums, W.lists, W.ctrls
    ensures Grew(W, W') && Inv(env, W') && ResultIn(r, W')
    ensures |env.evalStack| >= |old(env.evalStack)|
    ensures !(lhs.Identifier? || lhs.IndexExpr?) ==> r == Err(SyntaxError)
    ensures r.Ok? ==> r.value == written && !written.Undefined?
    ensures r.Ok? && lhs.Identifier? ==> lhs.symbol in env.variables && env.variables[lhs.symbol] == written
    decreases fuel, 3
  {
    written, W' := Undefined, W;
    if !(lhs.Identifier? || lhs.IndexExpr?) {
      r := Err(SyntaxError);
    } else {
      var v;
      v, W' := Evaluate(d, CompoundSource(lhs, rhs, op), env, W, fuel);
      if v.Err? {
        r := Err(v.error);
      } else if v.value.Undefined? {
        r := Err(HostTypeError);
      } else if lhs.Identifier? {
        written := v.value;
        r := Bind(env, lhs.symbol, v.value, isConst, W');
      } else {
        written := v.value;
        ghost var xr, ir, ks, src, before;
        r, W', xr, ir, ks, src, before := AssignIndex(d, lhs.expr, lhs.index, v.value, env, W', fuel);
      }
    }
  }

  /** The right side an assignment evaluates: with a compound operator `op`,
      `lhs op rhs`. */
  function CompoundSource(lhs: Expr, rhs: Expr, op: Option<string>): (e: Expr)
    ensures op.None? ==> e == rhs
    ensures op.Some? ==> e.BinaryExpr? && e.leftHand == lhs && e.rightHand == rhs && e.operator == op.value
  {
    if op.Some? then BinaryExpr(lhs, rhs, op.value) else rhs
  }

  /** An assignment node as evaluating it leaves it in the source: with a
      compound operator, the node's right-hand side is overwritten in place
      by `lhs op rhs` before it is evaluated, so the expression evaluated
      is the new right-hand side. */
  function AssignNodeAsWritten(node: Expr): (r: Expr)
    requires node.AssignmentExpr?
    ensures r.AssignmentExpr? && r.lefthand == node.lefthand && r.assignOp == node.assignOp
    ensures r.rightHand == CompoundSource(node.lefthand, node.rightHand, node.assignOp)
  {
    if node.assignOp.Some? then
      AssignmentExpr(node.lefthand, BinaryExpr(node.lefthand, node.rightHand, node.assignOp.value),
                     node.assignOp, node.isRef, node.isConst)
    else node
  }

  /** As written, the second evaluation of the same `x op= e` node (a loop
      body, a function called twice) evaluates `x op (x op e)` instead of
      `x op e`: the node drifts on every evaluation. */
  lemma CompoundNodeDrifts(node: Expr)
    requires node.AssignmentExpr? && node.assignOp.Some?
    ensures var once := AssignNodeAsWritten(node);
            once.rightHand == CompoundSource(node.lefthand, node.rightHand, node.assignOp) &&
            AssignNodeAsWritten(once).rightHand != once.rightHand
  {
    var once := AssignNodeAsWritten(node);
    assert once.rightHand.rightHand == node.rightHand;
    var twice := AssignNodeAsWritten(once);
    assert twice.rightHand.rightHand == once.rightHand;
  }

  /** `i += 1` evaluated twice: the second time it adds `i + 1`. */
  lemma IncrementTwiceAsWritten()
    ensures var node := AssignmentExpr(Identifier("i"), NumberLiteral(1), Some("+"), false, false);
            AssignNodeAsWritten(AssignNodeAsWritten(node)).rightHand ==
              BinaryExpr(Identifier("i"), BinaryExpr(Identifier("i"), NumberLiteral(1), "+"), "+")
  {
  }

  /** `x[i] = value`: the indexable and the index are evaluated, in that
      order (`xr`, `ir`), then checked; the write itself is `WriteEarlier`
      or `WriteCurrent`. Just before it, the List holds `before`, the index
      payloads are `ks` and `value` offers the items `src`. */
  method AssignIndex(d: Dialect, x: Expr, i: Expr, value: Value, env: Enviroment, ghost W: World, fuel: nat)
    returns (r: Result<Value>, ghost W': World, ghost xr: Result<Value>, ghost ir: Result<Value>,
             ghost ks: Result<seq<int>>, ghost src: seq<Value>, ghost before: Store)
    requires Inv(env, W) && ValueIn(value, W) && !value.Undefined?
    modifies env, W.nums, W.lists, W.ctrls
    ensures Grew(W, W') && Inv(env, W') && ResultIn(r, W')
    ensures |env.evalStack| >= |old(env.evalStack)|
    ensures r.Ok? ==> r.value == value
    ensures xr.Err? ==> r == Err(xr.error)
    ensures xr.Ok? && ir.Err? ==> r == Err(ir.error)
    ensures xr.Ok? && ir.Ok? && xr.value.Undefined? ==> r == Err(HostTypeError)
    ensures xr.Ok? && ir.Ok? && !xr.value.Undefined? && !xr.value.ListV? ==> r == Err(TypeError)
    ensures xr.Ok? && ir.Ok? && xr.value.ListV? ==>
              Stored(d, xr.value.list, ir.value, value, r, ks, src, before, StoreOf(xr.value.list))
    // the snapshots are what the index and the value still hold when the write did not touch them
    ensures xr.Ok? && ir.Ok? && xr.value.ListV? && !ir.value.Undefined? &&
            !(ir.value.ListV? && ir.value.list == xr.value.list) ==>
              ks == NumberIndices(IndexOperand(ir.value))
    ensures xr.Ok? && ir.Ok? && xr.value.ListV? && !(value.ListV? && value.list == xr.value.list) ==>
              src == SourceItems(value)
    decreases fuel, 2
  {
    ir, ks, src, before := Ok(Undefined), Ok([]), [], Store([], map[]);
    var xv;
    xv, W' := Evaluate(d, x, env, W, fuel);
    xr := xv;
    if xv.Err? {
      r := Err(xv.error);
    } else {
      r, W', ir, ks, src, before := AssignAt(d, xv.value, i, value, env, W', fuel);
    }
  }

  /** `x[i] = value` once `x` is evaluated to `xv`: the index is evaluated
      (`ir`), then the write as `AssignIndex` describes it. */
  method AssignAt(d: Dialect, xv: Value, i: Expr, value: Value, env: Enviroment, ghost W: World, fuel: nat)
    returns (r: Result<Value>, ghost W': World, ghost ir: Result<Value>,
             ghost ks: Result<seq<int>>, ghost src: seq<Value>, ghost before: Store)
    requires Inv(env, W) && ValueIn(xv, W) && ValueIn(value, W) && !value.Undefined?
    modifies env, W.nums, W.lists, W.ctrls
    ensures Grew(W, W') && Inv(env, W') && ResultIn(r, W')
    ensures |env.evalStack| >= |old(env.evalStack)|
    ensures r.Ok? ==> r.value == value
    ensures ir.Err? ==> r == Err(ir.error)
    ensures ir.Ok? && xv.Undefined? ==> r == Err(HostTypeError)
    ensures ir.Ok? && !xv.Undefined? && !xv.ListV? ==> r == Err(TypeError)
    ensures ir.Ok? && xv.ListV? ==> Stored(d, xv.list, ir.value, value, r, ks, src, before, StoreOf(xv.list))
    ensures ir.Ok? && xv.ListV? && !ir.value.Undefined? && !(ir.value.ListV? && ir.value.list == xv.list) ==>
              ks == NumberIndices(IndexOperand(ir.value))
    ensures ir.Ok? && xv.ListV? && !(value.ListV? && value.list == xv.list) ==> src == SourceItems(value)
    decreases fuel, 1
  {
    ks, src, before := Ok([]), [], Store([], map[]);
    var iv;
    iv, W' := Evaluate(d, i, env, W, fuel);
    ir := iv;
    if iv.Err? {
      r := Err(iv.error);
    } else {
      if xv.ListV? {
        before, ks, src := StoreOf(xv.list), NumberIndices(IndexOperand(iv.value)), SourceItems(value);
      }
      r := StoreAt(d, xv, iv.value, value, env, W');
    }
  }

  /** How the write `list[iv] = value` ended, given the List's contents
      `before` and `after` it, and the index payloads `ks` and the items
      `src` that `value` offers, both taken before it: `undefined` as index
      is a host error; interpreter.ts writes one clamped Number index and
      refuses anything else; evaluator.ts refuses a non-Number index and
      otherwise writes as `IndexWrite` says. A failure writes nothing. */
  predicate Stored(d: Dialect, list: ListBox, iv: Value, value: Value, r: Result<Value>,
                   ks: Result<seq<int>>, src: seq<Value>, before: Store, after: Store)
    reads if iv.NumberV? then {iv.num} else {}
  {
    && (iv.Undefined? ==> r == Err(HostTypeError) && after == before)
    && (d == Earlier && !iv.Undefined? && !iv.NumberV? ==> r == Err(TypeError) && after == before)
    && (d == Earlier && iv.NumberV? ==>
          r == Ok(value) && after == WriteAt(before, ClampIndex(iv.num.value, |before.items|), value))
    && (d == Current && !iv.Undefined? && ks.Err? ==> r == Err(ks.error) && after == before)
    && (d == Current && !iv.Undefined? && ks.Ok? ==>
          (r, after) == IndexWrite(before, ks.value, value, src, value.ListV? && value.list == list))
  }

  /** The checks and the write of `x[i] = value` once `x` and `i` are
      evaluated: only a List can be indexed. */
  method StoreAt(d: Dialect, xv: Value, iv: Value, value: Value, env: Enviroment, ghost W: World) returns (r: Result<Value>)
    requires Inv(env, W) && ValueIn(xv, W) && ValueIn(value, W) && !value.Undefined?
    modifies if xv.ListV? then {xv.list} else {}
    ensures Inv(env, W)
    ensures r.Ok? ==> r.value == value && xv.ListV?
    ensures xv.Undefined? ==> r == Err(HostTypeError)
    ensures !xv.Undefined? && !xv.ListV? ==> r == Err(TypeError)
    ensures xv.ListV? ==>
              Stored(d, xv.list, iv, value, r, old(NumberIndices(IndexOperand(iv))), old(SourceItems(value)),
                     old(StoreOf(xv.list)), StoreOf(xv.list))
    // the index and the value are read again unchanged unless they are the List written
    ensures xv.ListV? && !(iv.ListV? && iv.list == xv.list) ==>
              NumberIndices(IndexOperand(iv)) == old(NumberIndices(IndexOperand(iv)))
    ensures xv.ListV? && !(value.ListV? && value.list == xv.list) ==> SourceItems(value) == old(SourceItems(value))
  {
    if xv.Undefined? {
      r := Err(HostTypeError);
    } else if !xv.ListV? {
      r := Err(TypeError);
    } else if d == Earlier {
      r := WriteEarlier(xv.list, iv, value, env, W);
    } else {
      r := WriteCurrent(xv.list, iv, value, W);
    }
  }

  /** The list writes of the List module, on a List of the world: the world
      stays closed. */
  method WriteOneIn(list: ListBox, k: int, v: Value, ghost W: World)
    requires HeapClosed(W) && list in W.lists && ValueIn(v, W)
    modifies list
    ensures StoreOf(list) == WriteAt(old(StoreOf(list)), k, v)
    ensures HeapClosed(W)
  {
    ghost var s0 := StoreOf(list);
    assert StoreIn(s0, W);
    WriteOne(list, k, v);
    WriteAtIn(s0, k, v, W);
    forall l | l in W.lists ensures SeqIn(l.items, W) && MapIn(l.outside, W) {
      if l != list {
        assert old(SeqIn(l.items, W) && MapIn(l.outside, W));
      }
    }
  }

  method WriteManyIn(list: ListBox, pos: seq<int>, src: ListBox, ghost W: World) returns (o: Outcome)
    requires HeapClosed(W) && list in W.lists && src in W.lists
    modifies list
    ensures |old(src.items)| != |pos| ==> o == Fail(RuntimeError) && StoreOf(list) == old(StoreOf(list))
    ensures |old(src.items)| == |pos| ==>
              o == Pass && StoreOf(list) == WriteAll(old(StoreOf(list)), pos, old(src.items), src == list, 0)
    ensures HeapClosed(W)
  {
    ghost var s0 := StoreOf(list);
    ghost var src0 := src.items;
    assert StoreIn(s0, W) && SeqIn(src0, W);
    o := WriteMany(list, pos, src);
    if o.Pass? {
      WriteAllIn(s0, pos, src0, src == list, 0, W);
    }
    forall l | l in W.lists ensures SeqIn(l.items, W) && MapIn(l.outside, W) {
      if l != list {
        assert old(SeqIn(l.items, W) && MapIn(l.outside, W));
      }
    }
  }

  method PopIn(list: ListBox, idx: seq<int>, ghost W: World) returns (r: Result<Value>)
    requires HeapClosed(W) && list in W.lists
    modifies list
    ensures (exists i :: 0 <= i < |idx| && idx[i] > |old(list.items)|) ==>
              r == Err(RangeError) && list.items == old(list.items)
    ensures (forall i :: 0 <= i < |idx| ==> idx[i] <= |old(list.items)|) ==>
              r.Ok? && list.items == PopAll(old(list.items), idx).0
    // the answer is what `Pop` answers for the removed items
    ensures WithinLength(idx, |old(list.items)|) ==>
              r.Ok? && Bundled(PopAll(old(list.items), idx).1, r.value) &&
              (|PopAll(old(list.items), idx).1| > 1 ==> fresh(r.value.list))
    ensures r.Ok? && r.value.ListV? && r.value.list !in W.lists ==>
              fresh(r.value.list) && SeqIn(r.value.list.items, W) && r.value.list.outside == map[]
    ensures r.Ok? && !(r.value.ListV? && r.value.list !in W.lists) ==> ValueIn(r.value, W)
    ensures HeapClosed(W)
  {
    ghost var items0 := list.items;
    assert SeqIn(items0, W);
    r := Pop(list, idx);
    PopAllIn(items0, idx, W);
    if WithinLength(idx, |items0|) {
      assert Bundled(PopAll(items0, idx).1, r.value);
    }
    forall l | l in W.lists ensures SeqIn(l.items, W) && MapIn(l.outside, W) {
      if l != list {
        assert old(SeqIn(l.items, W) && MapIn(l.outside, W));
      }
    }
  }

  /** The index write of interpreter.ts: one Number index, wrapped once and
      clamped into `[0, length]`. */
  method WriteEarlier(list: ListBox, iv: Value, value: Value, env: Enviroment, ghost W: World) returns (r: Result<Value>)
    requires Inv(env, W) && list in W.lists && ValueIn(value, W)
    modifies list
    ensures Inv(env, W)
    ensures iv.Undefined? ==> r == Err(HostTypeError) && unchanged(list)
    ensures !iv.Undefined? && !iv.NumberV? ==> r == Err(TypeError) && unchanged(list)
    ensures iv.NumberV? ==>
              r == Ok(value) && StoreOf(list) == WriteAt(old(StoreOf(list)), ClampIndex(iv.num.value, old(|list.items|)), value)
  {
    if iv.Undefined? {
      r := Err(HostTypeError);
    } else if !iv.NumberV? {
      r := Err(TypeError);
    } else {
      var k := ClampIndex(iv.num.value, |list.items|);
      WriteOneIn(list, k, value, W);
      r := Ok(value);
    }
  }

  /** The index write of evaluator.ts on a List holding `s`, once the
      indices `ks` are known: one index is used as it is; several are each
      wrapped and clamped, and then the value must be a List of as many items
      (`src`), written one by one (`aliased` when it is the List written);
      no index fails on the host. The outcome and the new contents. */
  function IndexWrite(s: Store, ks: seq<int>, value: Value, src: seq<Value>, aliased: bool): (Result<Value>, Store)
  {
    if |ks| == 0 then (Err(HostTypeError), s)
    else if |ks| == 1 then (Ok(value), WriteAt(s, ks[0], value))
    else if !value.ListV? || |src| != |ks| then (Err(RuntimeError), s)
    else (Ok(value), WriteAll(s, ClampAll(ks, |s.items|), src, aliased, 0))
  }

  /** The index values an index operand stands for: the items of a List,
      or the operand alone. */
  function IndexOperand(v: Value): seq<Value>
    reads if v.ListV? then {v.list} else {}
  {
    if v.ListV? then v.list.items else [v]
  }

  /** The items a value offers as the source of a multiple write. */
  function SourceItems(v: Value): seq<Value>
    reads if v.ListV? then {v.list} else {}
  {
    if v.ListV? then v.list.items else []
  }

  /** The index write of evaluator.ts: the index is a Number or a List of
      Numbers (`NumberIndices`), then `IndexWrite`. */
  method WriteCurrent(list: ListBox, iv: Value, value: Value, ghost W: World) returns (r: Result<Value>)
    requires HeapClosed(W) && list in W.lists && ValueIn(value, W)
    modifies list
    ensures HeapClosed(W)
    ensures iv.Undefined? ==> r == Err(HostTypeError) && unchanged(list)
    ensures !iv.Undefined? && old(NumberIndices(IndexOperand(iv))).Err? ==>
              r == Err(old(NumberIndices(IndexOperand(iv))).error) && unchanged(list)
    ensures !iv.Undefined? && old(NumberIndices(IndexOperand(iv))).Ok? ==>
              (r, StoreOf(list)) ==
              IndexWrite(old(StoreOf(list)), old(NumberIndices(IndexOperand(iv))).value,
                         value, old(SourceItems(value)), value.ListV? && value.list == list)
  {
    if iv.Undefined? {
      r := Err(HostTypeError);
    } else {
      var vs := IndexOperand(iv);
      var ns := NumberIndices(vs);
      if ns.Err? {
        r := Err(ns.error);
      } else {
        r := WriteAtIndices(list, ns.value, value, W);
      }
    }
  }

  /** `IndexWrite` in place. */
  method WriteAtIndices(list: ListBox, ks: seq<int>, value: Value, ghost W: World) returns (r: Result<Value>)
    requires HeapClosed(W) && list in W.lists && ValueIn(value, W)
    modifies list
    ensures HeapClosed(W)
    ensures (r, StoreOf(list)) ==
            IndexWrite(old(StoreOf(list)), ks, value, old(SourceItems(value)), value.ListV? && value.list == list)
  {
    if |ks| == 0 {
      r := Err(HostTypeError);
    } else if |ks| == 1 {
      WriteOneIn(list, ks[0], value, W);
      r := Ok(value);
    } else if !value.ListV? {
      r := Err(RuntimeError);
    } else {
      var pos := ClampAll(ks, |list.items|);
      var o := WriteManyIn(list, pos, value.list, W);
      r := if o.Fail? then Err(o.error) else Ok(value);
    }
  }

  /** `evalIndexExpr`: the indexed value must be a List, checked before the
      index is evaluated; the read itself is `ReadIndex`. `xv` is the
      indexed operand's result and `iv` the index's. */
  method EvalIndex(d: Dialect, x: Expr, i: Expr, env: Enviroment, ghost W: World, fuel: nat)
    returns (r: Result<Value>, ghost W': World, ghost xv: Result<Value>, ghost iv: Result<Value>)
    requires Inv(env, W)
    modifies env, W.nums, W.lists, W.ctrls
    ensures Grew(W, W') && Inv(env, W') && ResultIn(r, W')
    ensures |env.evalStack| >= |old(env.evalStack)|
    ensures xv.Err? ==> r == Err(xv.error)
    ensures xv.Ok? && xv.value.Undefined? ==> r == Err(HostTypeError)
    ensures xv.Ok? && !xv.value.Undefined? && !xv.value.ListV? ==> r == Err(TypeError)
    ensures xv.Ok? && xv.value.ListV? && iv.Err? ==> r == Err(iv.error)
    ensures xv.Ok? && xv.value.ListV? && iv.Ok? ==> ReadOutcome(d, xv.value.list, iv.value, r)
    decreases fuel, 2
  {
    var v;
    v, W' := Evaluate(d, x, env, W, fuel);
    xv, iv := v, Ok(Undefined);
    if v.Err? {
      r := Err(v.error);
    } else if v.value.Undefined? {
      r := Err(HostTypeError);
    } else if !v.value.ListV? {
      r := Err(TypeError);
    } else {
      r, W', iv := IndexInto(d, v.value.list, i, env, W', fuel);
    }
  }

  /** The index of `x[i]` evaluated (`iv`), then `ReadIndex`. */
  method IndexInto(d: Dialect, list: ListBox, i: Expr, env: Enviroment, ghost W: World, fuel: nat)
    returns (r: Result<Value>, ghost W': World, ghost iv: Result<Value>)
    requires Inv(env, W) && list in W.lists
    modifies env, W.nums, W.lists, W.ctrls
    ensures Grew(W, W') && Inv(env, W') && ResultIn(r, W')
    ensures |env.evalStack| >= |old(env.evalStack)|
    ensures iv.Err? ==> r == Err(iv.error)
    ensures iv.Ok? ==> ReadOutcome(d, list, iv.value, r)
    decreases fuel, 1
  {
    var v;
    v, W' := Evaluate(d, i, env, W, fuel);
    iv := v;
    if v.Err? {
      r := Err(v.error);
    } else {
      r, W' := ReadIndex(d, list, v.value, env, W');
    }
  }

  /** The objects an index value's Number payloads live in. */
  function IndexFootprint(iv: Value): set<object>
    reads if iv.ListV? then {iv.list} else {}
  {
    if iv.NumberV? then {iv.num}
    else if iv.ListV? then {iv.list} + set v | v in iv.list.items && v.NumberV? :: v.num
    else {}
  }

  /** How reading `list` at the evaluated index `iv` ended: interpreter.ts
      takes one Number (`ReadOne`); evaluator.ts a Number or a List of
      Numbers, none giving `undefined`, one its element and several a List
      of theirs (`IndexRead`). */
  predicate ReadOutcome(d: Dialect, list: ListBox, iv: Value, r: Result<Value>)
    reads list, IndexFootprint(iv), if r.Ok? && r.value.ListV? then {r.value.list} else {}
  {
    && (iv.Undefined? ==> r == Err(HostTypeError))
    && (d == Earlier && !iv.Undefined? && !iv.NumberV? ==> r == Err(TypeError))
    && (d == Earlier && iv.NumberV? ==> r == ReadOne(StoreOf(list), iv.num.value))
    && (d == Current && !iv.Undefined? ==> IndicesRead(list, NumberIndices(IndexOperand(iv)), r))
  }

  /** How reading `list` at the index payloads `ks` (or their failure) ended
      in evaluator.ts. */
  predicate IndicesRead(list: ListBox, ks: Result<seq<int>>, r: Result<Value>)
    reads list, if r.Ok? && r.value.ListV? then {r.value.list} else {}
  {
    && (ks.Err? ==> r == Err(ks.error))
    && (ks.Ok? ==> (r.Ok? <==> ReadEach(StoreOf(list), ks.value).Ok?))
    && (ks.Ok? && r.Err? ==> r.error == RangeError)
    && (ks.Ok? && ks.value == [] ==> r == Ok(Undefined))
    && (ks.Ok? && r.Ok? && |ks.value| == 1 ==> r.value == ReadEach(StoreOf(list), ks.value).value[0])
    && (ks.Ok? && r.Ok? && |ks.value| > 1 ==>
          r.value.ListV? && r.value.list.items == ReadEach(StoreOf(list), ks.value).value)
  }

  /** Reading a List at an evaluated index. */
  method ReadIndex(d: Dialect, list: ListBox, iv: Value, env: Enviroment, ghost W: World)
    returns (r: Result<Value>, ghost W': World)
    requires Inv(env, W) && list in W.lists
    ensures Grew(W, W') && Inv(env, W') && ResultIn(r, W')
    ensures ReadOutcome(d, list, iv, r)
  {
    W' := W;
    assert StoreIn(StoreOf(list), W);
    if iv.Undefined? {
      r := Err(HostTypeError);
    } else if d == Earlier {
      if !iv.NumberV? {
        r := Err(TypeError);
      } else {
        r := ReadOne(StoreOf(list), iv.num.value);
        if r.Ok? {
          ReadAtIn(StoreOf(list), Wrap(iv.num.value, |list.items|), W);
        }
      }
    } else {
      r, W' := ReadCurrent(list, iv, env, W);
    }
  }

  /** The index read of evaluator.ts: the index is a Number or a List of
      Numbers (`NumberIndices`), then `IndexRead`. */
  method ReadCurrent(list: ListBox, iv: Value, env: Enviroment, ghost W: World)
    returns (r: Result<Value>, ghost W': World)
    requires Inv(env, W) && list in W.lists && !iv.Undefined?
    ensures Grew(W, W') && Inv(env, W') && ResultIn(r, W')
    ensures IndicesRead(list, NumberIndices(IndexOperand(iv)), r)
  {
    W' := W;
    var vs := IndexOperand(iv);
    var ns := NumberIndices(vs);
    if ns.Err? {
      r := Err(ns.error);
    } else {
      r, W' := ReadIn(list, ns.value, env, W);
    }
  }

  /** `IndexRead` on a List of the world: a several-item answer joins the
      world, which stays closed. */
  method ReadIn(list: ListBox, ks: seq<int>, env: Enviroment, ghost W: World) returns (r: Result<Value>, ghost W': World)
    requires Inv(env, W) && list in W.lists
    ensures Grew(W, W') && Inv(env, W') && ResultIn(r, W')
    ensures ReadEach(StoreOf(list), ks).Err? ==> r == Err(RangeError)
    ensures ReadEach(StoreOf(list), ks).Ok? ==> r.Ok?
    ensures r.Ok? && |ks| == 0 ==> r.value == Undefined
    ensures r.Ok? && |ks| == 1 ==> r.value == ReadEach(StoreOf(list), ks).value[0]
    ensures r.Ok? && |ks| > 1 ==> r.value.ListV? && r.value.list.items == ReadEach(StoreOf(list), ks).value
  {
    W' := W;
    ghost var s := StoreOf(list);
    assert StoreIn(s, W);
    r := IndexRead(list, ks);
    if r.Ok? {
      ReadEachIn(s, ks, W);
      if |ks| > 1 {
        W' := AddList(W, r.value.list);
        SeqInMono(r.value.list.items, W, W');
        InvGrow(env, W, W');
      }
    }
  }

  /** `evalShiftExpr`, `right << left`: the right side must be a name or an
      index expression. Its old value (`oldValue`) is read against a copy of
      the scope (`ReadBack`); then `right = source` is written in the real
      scope, where `source` is `*left` (evaluator.ts wraps the left side in
      `*` only when it is a name or an index expression); the old value is
      the result. `written` is the value written. */
  method EvalShift(d: Dialect, left: Expr, right: Expr, env: Enviroment, ghost W: World, fuel: nat)
    returns (r: Result<Value>, ghost W': World, ghost oldValue: Result<Value>, ghost source: Expr, ghost written: Value)
    requires Inv(env, W)
    modifies env, W.nums, W.lists, W.ctrls
    ensures Grew(W, W') && Inv(env, W') && ResultIn(r, W')
    ensures |env.evalStack| >= |old(env.evalStack)|
    ensures !(right.Identifier? || right.IndexExpr?) ==> r == Err(SyntaxError)
    ensures (right.Identifier? || right.IndexExpr?) && oldValue.Err? ==> r == oldValue
    ensures source == if d == Earlier || left.Identifier? || left.IndexExpr? then PreUnaryExpr(left, "*") else left
    // a successful shift is worth the old value and has written the new one
    ensures r.Ok? ==> (right.Identifier? || right.IndexExpr?) && r == oldValue && !written.Undefined?
    ensures r.Ok? && right.Identifier? ==> right.symbol in env.variables && env.variables[right.symbol] == written
    decreases fuel, 4
  {
    W', oldValue, written := W, Err(SyntaxError), Undefined;
    var src := if d == Earlier || left.Identifier? || left.IndexExpr? then PreUnaryExpr(left, "*") else left;
    source := src;
    if !(right.Identifier? || right.IndexExpr?) {
      r := Err(SyntaxError);
    } else {
      var ov;
      ghost var inner;
      ov, W', inner := ReadBack(d, right, env, W, fuel);
      oldValue := ov;
      if ov.Ok? {
        var a;
        ghost var W1 := W';
        a, W', written := EvalAssignment(d, right, src, None, false, env, W1, fuel);
        if a.Err? {
          r := Err(a.error);
        } else {
          ValueInMono(ov.value, W1, W');
          r := ov;
        }
      } else {
        r := ov;
      }
    }
  }

  /** The old value of a shift: `right` evaluated against `env.clone()`
      (outcome `inner`); a failure gives Null, except running out of fuel. */
  method ReadBack(d: Dialect, right: Expr, env: Enviroment, ghost W: World, fuel: nat)
    returns (r: Result<Value>, ghost W': World, ghost inner: Result<Value>)
    requires Inv(env, W)
    modifies W.nums, W.lists, W.ctrls
    ensures Grew(W, W') && Inv(env, W') && ResultIn(r, W')
    ensures unchanged(env)
    ensures inner.Ok? ==> r == inner
    ensures inner.Err? && inner.error == OutOfFuel ==> r == Err(OutOfFuel)
    ensures inner.Err? && inner.error != OutOfFuel ==> r == Ok(NULLVAL)
    decreases fuel, 1
  {
    var copy := new Enviroment.Clone(env);
    var ov;
    ov, W' := Evaluate(d, right, copy, W, fuel);
    inner := ov;
    if ov.Ok? {
      r := ov;
    } else if ov.error == OutOfFuel {
      r := Err(OutOfFuel);
    } else {
      r := Ok(NULLVAL);
    }
    EnvInGrow(env, W, W');
  }

  /** `evalMethodExpr`: only Numbers have methods, and the only one is
      `toFixed`. Its table entry is a native-function object, not a
      function, so calling it fails once the arguments are evaluated. The
      names a JavaScript object inherits are found too and called with the
      argument array and the scope (`MemberCall`). `receiver` is the
      receiver's outcome and `argValues` the arguments' values. */
  method EvalMethod(x: Expr, name: string, args: seq<Expr>, env: Enviroment, ghost W: World, fuel: nat)
    returns (r: Result<Value>, ghost W': World, ghost receiver: Result<Value>, ghost argValues: Result<seq<Value>>)
    requires Inv(env, W)
    modifies env, W.nums, W.lists, W.ctrls
    ensures Grew(W, W') && Inv(env, W') && ResultIn(r, W')
    ensures |env.evalStack| >= |old(env.evalStack)|
    // a method call succeeds only as an inherited getter lookup, with `undefined`
    ensures r.Ok? ==> r == Ok(Undefined) && name in LOOKUP_MEMBERS
    ensures receiver.Err? ==> r == receiver
    ensures receiver.Ok? && receiver.value.Undefined? ==> r == Err(HostTypeError)
    ensures receiver.Ok? && !receiver.value.Undefined? && !receiver.value.NumberV? ==> r == Err(TypeError)
    ensures receiver.Ok? && receiver.value.NumberV? && name != "toFixed" && name !in OBJECT_MEMBERS ==>
              r == Err(RuntimeError)
    // a found name is called once the arguments are evaluated
    ensures receiver.Ok? && receiver.value.NumberV? && (name == "toFixed" || name in OBJECT_MEMBERS) ==>
              (argValues.Err? ==> r == Err(argValues.error)) &&
              (argValues.Ok? ==> r == MemberCall(name))
    ensures receiver.Ok? && receiver.value.NumberV? && (name == "toFixed" || name == "__proto__") && args == [] ==>
              r == Err(HostTypeError)
    ensures receiver.Ok? && receiver.value.NumberV? && name in OBJECT_MEMBERS - {"__proto__"} && args == [] ==>
              r == MemberCall(name)
    decreases fuel, 2
  {
    var xv;
    xv, W' := Evaluate(Current, x, env, W, fuel);
    receiver, argValues := xv, Ok([]);
    if xv.Err? {
      r := Err(xv.error);
    } else if xv.value.Undefined? {
      r := Err(HostTypeError);
    } else if !xv.value.NumberV? {
      r := Err(TypeError);
    } else if name != "toFixed" && name !in OBJECT_MEMBERS {
      r := Err(RuntimeError);
    } else {
      var vs;
      vs, W' := EvalItems(Current, args, env, W', fuel);
      argValues := vs;
      if vs.Err? {
        r := Err(vs.error);
      } else {
        r := MemberCall(name);
      }
    }
  }

  /** The inherited getter lookups: no getter is defined, so they answer
      `undefined`. */
  const LOOKUP_MEMBERS: set<string> := {"__lookupGetter__", "__lookupSetter__"}

  /** Calling a found method `name` of a Number with `(args, env)`. `toFixed`
      and `__proto__` hold objects that cannot be called, and the setter
      definitions reject the scope as an accessor function: host type errors.
      The getter lookups answer `undefined`. Every other inherited member
      answers a host value that is not a value of this language. */
  function MemberCall(name: string): (r: Result<Value>)
    ensures r.Ok? <==> name in LOOKUP_MEMBERS
    ensures r.Ok? ==> r.value.Undefined?
    ensures name in {"toFixed", "__proto__", "__defineGetter__", "__defineSetter__"} ==> r == Err(HostTypeError)
  {
    if name in LOOKUP_MEMBERS then Ok(Undefined)
    else if name in {"toFixed", "__proto__", "__defineGetter__", "__defineSetter__"} then Err(HostTypeError)
    else Err(Unrepresentable)
  }

  /** `evalRangeExpr`: start, end and step, then all must be Numbers; the
      List of the range (`RangeValues`). */
  method EvalRange(start: Expr, end: Expr, inclusive: bool, step: Expr, env: Enviroment, ghost W: World, fuel: nat)
    returns (r: Result<Value>, ghost W': World)
    requires Inv(env, W)
    modifies env, W.nums, W.lists, W.ctrls
    ensures Grew(W, W') && Inv(env, W') && ResultIn(r, W')
    ensures |env.evalStack| >= |old(env.evalStack)|
    ensures r.Ok? ==> r.value.ListV? && fresh(r.value.list)
    decreases fuel, 2
  {
    var vs;
    vs, W' := EvalItems(Current, [start, end, step], env, W, fuel);
    if vs.Err? {
      r := Err(vs.error);
    } else {
      assert |vs.value| == 3;
      r, W' := MakeRange(vs.value[0], vs.value[1], vs.value[2], inclusive, env, W');
    }
  }

  /** The range of three evaluated bounds. */
  method MakeRange(a: Value, b: Value, c: Value, inclusive: bool, env: Enviroment, ghost W: World)
    returns (r: Result<Value>, ghost W': World)
    requires Inv(env, W)
    ensures Grew(W, W') && Inv(env, W') && ResultIn(r, W')
    ensures a.Undefined? || b.Undefined? || c.Undefined? ==> r == Err(HostTypeError)
    ensures !(a.Undefined? || b.Undefined? || c.Undefined?) && !(a.NumberV? && b.NumberV? && c.NumberV?) ==>
              r == Err(TypeError)
    ensures r.Ok? ==> a.NumberV? && b.NumberV? && c.NumberV? && r.value.ListV? && fresh(r.value.list)
    // a non-positive step is refused exactly when the range is not empty
    ensures a.NumberV? && b.NumberV? && c.NumberV? && c.num.value <= 0 ==>
              if (if inclusive then a.num.value <= b.num.value else a.num.value < b.num.value)
              then r == Err(Diverges) else r.Ok? && r.value.list.items == []
    ensures a.NumberV? && b.NumberV? && c.NumberV? && c.num.value > 0 ==>
              r.Ok? && |r.value.list.items| == |RangeSpec(a.num.value, b.num.value, c.num.value, inclusive)| &&
              forall i :: 0 <= i < |r.value.list.items| ==>
                r.value.list.items[i].NumberV? &&
                r.value.list.items[i].num.value == RangeSpec(a.num.value, b.num.value, c.num.value, inclusive)[i]
  {
    W' := W;
    if a.Undefined? || b.Undefined? || c.Undefined? {
      r := Err(HostTypeError);
    } else if !(a.NumberV? && b.NumberV? && c.NumberV?) {
      r := Err(TypeError);
    } else {
      r := RangeValues(a.num.value, b.num.value, c.num.value, inclusive);
      if r.Ok? {
        W' := AddList(AddNums(W, r.value.list.items), r.value.list);
        InvGrow(env, W, W');
      }
    }
  }

  /** `evalPopExpr`: a value that is not a List comes back unchanged (its
      index is not evaluated); otherwise the indices are removed (`PopInto`).
      `popped` is the value popped from, and `iv`, `ks` and `before` are as
      `PopInto` gives them. */
  method EvalPop(list: Expr, index: Expr, env: Enviroment, ghost W: World, fuel: nat)
    returns (r: Result<Value>, ghost W': World, ghost popped: Value,
             ghost iv: Result<Value>, ghost ks: Result<seq<int>>, ghost before: seq<Value>)
    requires Inv(env, W)
    modifies env, W.nums, W.lists, W.ctrls
    ensures Grew(W, W') && Inv(env, W') && ResultIn(r, W')
    ensures |env.evalStack| >= |old(env.evalStack)|
    ensures r.Ok? && !popped.ListV? ==> r.value == popped
    // a failed or `undefined` operand fails; any other non-List comes back
    ensures popped.Undefined? ==> r.Err?
    ensures !popped.Undefined? && !popped.ListV? ==> r == Ok(popped)
    // a List operand is popped as `PopInto` says
    ensures popped.ListV? ==> PopOutcome(popped.list, r, iv, ks, before)
    ensures popped.ListV? && iv.Ok? && !iv.value.Undefined? && ks.Ok? && WithinLength(ks.value, |before|) ==>
              |PopAll(before, ks.value).1| > 1 ==> fresh(r.value.list)
    decreases fuel, 2
  {
    var lv;
    popped, iv, ks, before := Undefined, Ok(Undefined), Ok([]), [];
    lv, W' := Evaluate(Current, list, env, W, fuel);
    if lv.Err? {
      r := Err(lv.error);
    } else if lv.value.Undefined? {
      r := Err(HostTypeError);
    } else if !lv.value.ListV? {
      popped := lv.value;
      r := lv;
    } else {
      popped := lv.value;
      r, W', iv, ks, before := PopInto(lv.value.list, index, env, W', fuel);
    }
  }

  /** How a pop from `list` ended, given the index operand's result `iv`, its
      Number payloads `ks` and the items `before` the removal: the failures
      in the order `evalPopExpr` checks them, then the removal and its
      answer. */
  predicate PopOutcome(list: ListBox, r: Result<Value>, iv: Result<Value>, ks: Result<seq<int>>, before: seq<Value>)
    reads list, if r.Ok? && r.value.ListV? then {r.value.list} else {}
  {
    && (iv.Err? ==> r == Err(iv.error))
    && (iv.Ok? && iv.value.Undefined? ==> r == Err(HostTypeError))
    && (iv.Ok? && !iv.value.Undefined? && ks.Err? ==> r == Err(ks.error))
    && (iv.Ok? && !iv.value.Undefined? && ks.Ok? && !WithinLength(ks.value, |before|) ==>
          r == Err(RangeError) && list.items == before)
    && (iv.Ok? && !iv.value.Undefined? && ks.Ok? && WithinLength(ks.value, |before|) ==>
          r.Ok? && list.items == PopAll(before, ks.value).0 && Bundled(PopAll(before, ks.value).1, r.value))
  }

  /** Evaluates the index operand of a pop (`iv`) and removes those
      positions from `list`; `before` is what `list` holds once the operand
      is evaluated. */
  method PopInto(list: ListBox, index: Expr, env: Enviroment, ghost W: World, fuel: nat)
    returns (r: Result<Value>, ghost W': World, ghost iv: Result<Value>, ghost ks: Result<seq<int>>,
             ghost before: seq<Value>)
    requires Inv(env, W) && list in W.lists
    modifies env, W.nums, W.lists, W.ctrls
    ensures Grew(W, W') && Inv(env, W') && ResultIn(r, W')
    ensures |env.evalStack| >= |old(env.evalStack)|
    ensures PopOutcome(list, r, iv, ks, before)
    ensures iv.Ok? && !iv.value.Undefined? && ks.Ok? && WithinLength(ks.value, |before|) ==>
              |PopAll(before, ks.value).1| > 1 ==> fresh(r.value.list)
    decreases fuel, 1
  {
    var v;
    v, W' := Evaluate(Current, index, env, W, fuel);
    iv, ks, before := v, Ok([]), list.items;
    if v.Err? {
      r := Err(v.error);
    } else {
      r, W', ks, before := PopAt(list, v.value, env, W');
    }
  }

  /** Removing the evaluated indices from a List (`Pop`): the index is a
      Number or a List of Numbers. */
  method PopAt(list: ListBox, iv: Value, env: Enviroment, ghost W: World)
    returns (r: Result<Value>, ghost W': World, ghost ks: Result<seq<int>>, ghost before: seq<Value>)
    requires Inv(env, W) && list in W.lists
    modifies list
    ensures Grew(W, W') && Inv(env, W') && ResultIn(r, W')
    ensures before == old(list.items)
    ensures iv.Undefined? ==> r == Err(HostTypeError) && unchanged(list)
    // `ks` is the payloads of the index values, or the first offender's failure
    ensures !iv.Undefined? ==> ks == old(NumberIndices(IndexOperand(iv)))
    ensures !iv.Undefined? && ks.Err? ==> r == Err(ks.error) && unchanged(list)
    ensures PopOutcome(list, r, Ok(iv), ks, before)
    ensures !iv.Undefined? && ks.Ok? && WithinLength(ks.value, |before|) && |PopAll(before, ks.value).1| > 1 ==>
              fresh(r.value.list)
  {
    W', ks, before := W, Ok([]), list.items;
    if iv.Undefined? {
      r := Err(HostTypeError);
    } else {
      var vs := IndexOperand(iv);
      var ns := NumberIndices(vs);
      ks := ns;
      if ns.Err? {
        r := Err(ns.error);
      } else {
        r := PopIn(list, ns.value, W);
        assert Inv(env, W);
        if r.Ok? && r.value.ListV? && r.value.list !in W.lists {
          W' := AddList(W, r.value.list);
          SeqInMono(r.value.list.items, W, W');
          InvGrow(env, W, W');
        }
      }
    }
  }
}
