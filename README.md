# Expression: a verified model of the lexer, parser and evaluator

Expression is a small expression-oriented scripting language written in
TypeScript. In this language everything is an expression: a block is worth its
last value, and a loop is worth the number of iterations it completed. Control
words (`break`, `continue`) are values that carry a count of enclosing blocks
to leave. Lists are mutable and can be indexed by several indices at once.

This project models the core of the implementation in Dafny:

- `lexer.dfy` (`Lexer`): the tokenizer. `Lex` is a reference definition that
  works rule by rule on the first character. `Tokenize` is the
  character-queue loop of the source, proved equal to `Lex`.
- `parser.dfy` (`Parser`): the recursive-descent parser.
  - The grammar functions (`Expression`, `ShiftExpr`, `BinaryExpr`, ...) are
    the reference grammar over a token list.
  - The class `Parser.Parser` holds the mutable token queue `token` of the
    source. Each of its `Parse...` methods is proved to leave the queue, and
    to answer, exactly as the matching grammar function does on the old
    queue.
- `ast.dfy` (`Ast`): the syntax tree.
- `values.dfy` (`Values`): runtime values. Mutable payloads are heap objects,
  so aliasing is as in the source:
  - a Number's scalar (`++x` changes it in place);
  - a List's backing array;
  - a Control value's carry count.
- `enviroment.dfy` (`Env`): the scope chain, as a class with a parent pointer,
  a variable map, a constant set and a trace of block values.
- `binary_op.dfy` (`BinaryOps`), `unary_op.dfy` (`UnaryOps`): the operator
  tables.
- `list_ops.dfy` (`ListOps`): JavaScript array reads, writes, clamped
  multi-index writes, ranges and `splice` pops. Each has a specification
  function and a method over the backing array proved against it.
- `evaluator.dfy` (`Eval`): the tree-walking evaluator. It covers both
  `src/runtime/evaluator.ts` (dialect `Current`) and its predecessor
  `src/runtime/interpreter.ts` (dialect `Earlier`). The prefix-operator table
  still calls the predecessor for its operand.
  - Every evaluation keeps an invariant `Inv`: the scope chain is valid, and
    every value reachable from a binding or a list has its payload in a ghost
    `World`.
  - A failure stands for `error(...)` (`src/utils.ts`), which throws and so
    ends the evaluation.
- `utils.dfy` (`Utils`): `clamp`, the error kinds, and `Result`/`Option`.

Calls to user functions may recurse without end. The evaluator is therefore
bounded by a `fuel` argument, and running out is the failure `OutOfFuel`.

## Model

In the parser rows, *consumes tokens* means that a successful parse takes at least one token and leaves a rest that still ends in EOF. *Keeps the queue well ended* means the same without the first part.

| member | source | states |
|---|---|---|
| Utils.Clamp | src/utils.ts:6-8 | the result is at most `max`; when `min <= max` it lies in `[min, max]`, equals `num` inside the range, and equals the nearer bound outside it |
| Values.NumberBox.constructor | src/runtime/value.ts:93-95 | a new Number payload holds the given value |
| Values.ListBox.constructor | src/runtime/value.ts:167-169 | a new List's backing array holds exactly the given items, with no non-element keys |
| Values.ControlBox.constructor | src/runtime/value.ts:225-228 | a Control value stores its control word and carry count unchanged |
| Values.IsValueTypes | src/runtime/value.ts:20-22 | true exactly when the value's tag is one of the listed types |
| Values.MkBool | src/runtime/value.ts:157 | gives a Boolean with the given truth, and it is the shared `TRUEVAL` or `FALSEVAL` |
| Values.Materialize | src/runtime/value.ts:93-95 | a Number result gets a fresh payload with that value; a Boolean result is `MKBOOL`; Null is `NULLVAL` |
| Values.ToInt32 | src/runtime/binaryOp.ts:64 | the ECMAScript ToInt32 wrap: in the signed 32-bit range, congruent to the input modulo 2^32, and the identity on that range |
| Values.BitAnd32 | src/runtime/binaryOp.ts:64 | `a & b` on Numbers lies in the signed 32-bit range |
| Values.AndBits | src/runtime/binaryOp.ts:64 | the bitwise and of two bit patterns is at most each of them |
| Values.BitAnd32Wraps | src/runtime/binaryOp.ts:64 | `&` sees its operands only through ToInt32: `a & b` equals `ToInt32(a) & ToInt32(b)` |
| Values.BitAnd32Self | src/runtime/binaryOp.ts:64 | `a & a` is ToInt32 of `a` |
| Values.AndBitsSelf | src/runtime/binaryOp.ts:64 | the and of a bit pattern with itself is that pattern |
| Values.SameWrap | src/runtime/binaryOp.ts:64 | a number and its ToInt32 image agree modulo 2^32 |
| Values.TruncRem | src/runtime/value.ts:111-113 | JavaScript `%`: the remainder takes the dividend's sign, is smaller than the divisor in magnitude, and completes the quotient rounded toward zero |
| Values.ExactDiv | src/runtime/binaryOp.ts:56-61 | a quotient exists exactly when the divisor is non-zero and divides the dividend, and then it times the divisor is the dividend |
| Values.InvokeCapability | src/runtime/value.ts:99-147 | a capability method answers `undefined` for a right operand of the wrong tag; Number capabilities on two Numbers always answer (comparisons with a Boolean), except division and remainder that leave the integers; `TRUEVAL.and`/`or` answer `rhs` and `true` |
| Values.Length | src/runtime/value.ts:170-172 | `length()` is the length of the backing array |
| Values.Iterate | src/runtime/value.ts:176-178 | `iterate()` hands out the backing array itself, not a copy |
| Values.GenEnumerable | src/runtime/value.ts:36-38 | `n` fresh, pairwise distinct Numbers holding `0 .. n-1` in order |
| Values.Enumerate | src/runtime/value.ts:173-175 | fresh distinct Numbers for the indices of the backing array, one per element |
| Values.Chars | src/runtime/value.ts:192-196 | one Character per character of the string, in order |
| Values.StringVal | src/runtime/value.ts:192-196 | a String is a fresh List whose items are the string's characters |
| Env.NativeNamesDistinct | src/runtime/enviroment.ts:13-17 | the native names bound into a root scope are pairwise distinct |
| Env.Enviroment.ChainFacts | src/runtime/enviroment.ts:38-42 | every scope on a valid chain is valid, lies inside the chain, and is shallower than the scope the chain starts from |
| Env.Enviroment.Root | src/runtime/enviroment.ts:11-18 | a root scope binds exactly the native function names, each as a constant holding its own native function, with an empty trace |
| Env.Enviroment.Child | src/runtime/enviroment.ts:11-18 | a child scope starts empty under its parent and keeps the chain valid |
| Env.Enviroment.Clone | src/runtime/evaluator.ts:279 | a copy of a scope has the same parent, variables, constants and trace, and is a distinct object |
| Env.Enviroment.Resolve | src/runtime/enviroment.ts:38-42 | answers the nearest scope of the chain that binds the name; null exactly when no scope does; no deeper scope binds it |
| Env.Enviroment.GetVar | src/runtime/enviroment.ts:29-35 | the value bound by the nearest scope with the name; a ReferenceError exactly when no scope of the chain has it |
| Env.Enviroment.IsConstant | src/runtime/enviroment.ts:49-53 | decided by the nearest scope that binds the name; false when none does; otherwise the parent's answer |
| Env.Enviroment.AssingVar | src/runtime/enviroment.ts:22-27 | a constant of this scope refuses with nothing changed; otherwise the name is bound in this scope only (and marked constant when asked), and the value comes back |
| Env.Enviroment.PushStack | src/runtime/enviroment.ts:44-47 | the value goes in front of the trace and comes back unchanged; bindings are untouched |
| Env.Enviroment.UnsignVar | src/runtime/enviroment.ts:55-60 | answers what the chain bound, or a ReferenceError with nothing changed; removes this scope's binding; the constant mark goes only when an enclosing scope resolves the name as constant, so an outermost constant stays marked |
| BinaryOps.ParseOp | src/runtime/binaryOp.ts:24-27 | the operator table lookup is the inverse of the operator text: it finds exactly the operator with that text |
| BinaryOps.BinaryOp | src/runtime/binaryOp.ts:27-140 | arithmetic and comparisons need two Numbers and give a Number or a Boolean; `/` is exact division; `%` is bitwise and of the 32-bit wraps; `==` needs equal tags and compares payloads, Lists by identity; `&&`/`\|\|` need two Booleans; any failure is a type error, a host error on `undefined`, or a result the integers cannot hold |
| BinaryOps.ModIsNotRemainder | src/runtime/binaryOp.ts:62-67 | the table's `%` and NumberVal's `mod` capability disagree: `5 % 3` is 1 by the table and 2 by the capability |
| UnaryOps.ParseUnOp | src/runtime/UnaryOp.ts:10-13 | the prefix table lookup is the inverse of the operator text |
| UnaryOps.PreUnary | src/runtime/UnaryOp.ts:13-42 | `-` negates a Number, `!` flips a Boolean, `++`/`--` step a Number's payload by one and answer the new value; any other operand gives Null; only `undefined` fails |
| ListOps.Holes | src/runtime/evaluator.ts:218-222 | writing past the end leaves holes that read as `undefined` |
| ListOps.WriteAt | src/runtime/evaluator.ts:222 | `arr[k] = v` makes `k` read `v`, leaves every other key as it was, lengthens the array to cover `k`, and puts a negative key outside the elements |
| ListOps.NumberIndices | src/runtime/evaluator.ts:172-183 | succeeds exactly when every index value is a Number and gives their payloads in order; otherwise names an offending value |
| ListOps.ReadEach | src/runtime/evaluator.ts:375-387 | succeeds exactly when every wrapped index is at most the length; then it reads each wrapped position in order; otherwise a RangeError |
| ListOps.IndexRead | src/runtime/evaluator.ts:356-390 | several indices give a fresh List of the elements read, one gives the element, none gives `undefined`; an out-of-bound index is a RangeError |
| ListOps.ReadEachPrefix | src/runtime/evaluator.ts:377-387 | the first out-of-bound index fails the whole read |
| ListOps.ReadEachSnoc | src/runtime/evaluator.ts:377-387 | reading one more index appends exactly that element |
| ListOps.ReadOne | src/runtime/interpreter.ts:292-300 | the single read wraps a negative index once; fails exactly above the length; reads the element at an in-range index, counting from the end for a negative one |
| ListOps.ClampIndex | src/runtime/evaluator.ts:191-199 | a write position is within `[0, len]`: unchanged in range, counted from the end when negative, else the nearer bound |
| ListOps.WriteAllDistinct | src/runtime/evaluator.ts:217-219 | with distinct positions and no aliasing, a multi-index write puts item `i` at position `i` and leaves every other key alone |
| ListOps.WriteMany | src/runtime/evaluator.ts:206-219 | a count mismatch fails before any write; otherwise the writes are done in order, as `WriteAll` specifies |
| ListOps.WriteOne | src/runtime/evaluator.ts:220-223 | the single write uses the index as it is: that key reads the value and nothing else changes |
| ListOps.RangeSpecShape | src/runtime/evaluator.ts:411-417 | every element of a range is `start + i*step`, lies within the bounds (inclusive when asked), and consecutive elements differ by `step` |
| ListOps.RangeValues | src/runtime/evaluator.ts:411-419 | a positive step gives a fresh List of fresh Numbers for the range; a non-positive step with the guard true at the start never ends (Diverges); otherwise the List is empty |
| ListOps.RangeItems | src/runtime/evaluator.ts:412-417 | the loop builds one fresh Number per element of `RangeSpec`, in order |
| ListOps.SpliceStart | src/runtime/evaluator.ts:449 | `splice` starts at the index, or counted from the end when it is negative, and never beyond the length |
| ListOps.SpliceOne | src/runtime/evaluator.ts:449 | `splice(k, 1)` removes at most one element, and what remains plus what was removed are the original elements |
| ListOps.PopAllConserves | src/runtime/evaluator.ts:445-450 | a pop loses and duplicates nothing: remaining and removed elements together are the original multiset; at most one element goes per index |
| ListOps.Pop | src/runtime/evaluator.ts:441-451 | any index above the length fails before anything is removed; otherwise the indices are spliced out in turn and the removed items come back bundled |
| ListOps.SpliceAll | src/runtime/evaluator.ts:447-450 | the loop of splices leaves the array and the removed items exactly as `PopAll` specifies |
| ListOps.Bundle | src/runtime/evaluator.ts:451 | no item gives `undefined`, one gives the item, several give a fresh List of them |
| Eval.BlockOutcomeNoExit | src/runtime/evaluator.ts:113-133 | when no child exits, a block is worth its last child's value, or Null when empty |
| Eval.BlockOutcomeFirstExit | src/runtime/evaluator.ts:117-129 | the first child that exits decides the block's value |
| Eval.BlockRanExit | src/runtime/evaluator.ts:117-129 | a block whose children went on until one exits ran to the value that exit gives, never `undefined` |
| Eval.BlockRanThrough | src/runtime/evaluator.ts:113-131 | a block whose children all went on ran to its last child's value, or Null when empty |
| Eval.BlockOutcomeFromTrace | src/runtime/evaluator.ts:113-133 | a block never makes up a value: it gives Null, True or one of its children's values |
| Eval.BlockOutcomeDefined | src/runtime/evaluator.ts:113-133 | a block whose children all have defined values is never worth `undefined` |
| Eval.ControlStepOther | src/runtime/evaluator.ts:123-128 | a control word other than `break` or `continue` with no carry left does not stop a block |
| Eval.NewNumber | src/runtime/evaluator.ts:58 | a Number literal evaluates to a fresh payload holding its value |
| Eval.NewString | src/runtime/evaluator.ts:64 | a String literal evaluates to a fresh List of its characters |
| Eval.NewControl | src/runtime/evaluator.ts:71-75 | a control literal evaluates to a fresh Control value with its word and carry count |
| Eval.NewList | src/runtime/evaluator.ts:259-261 | a fresh List holding exactly the given values |
| Eval.Bind | src/runtime/evaluator.ts:161 | binding keeps the invariant and behaves as `assingVar`: refused for a constant, otherwise bound in this scope |
| Eval.Unbind | src/runtime/evaluator.ts:351 | unsigning answers what the chain bound and removes this scope's binding |
| Eval.Push | src/runtime/evaluator.ts:116 | the value goes in front of the scope's trace; the bindings are untouched |
| Eval.Evaluate | src/runtime/evaluator.ts:54-111 | keeps the invariant and only grows the world; a name evaluates to its binding without changing the scope; the earlier dialect has no methods, ranges, pops or postfix operators |
| Eval.EvalAtom | src/runtime/evaluator.ts:57-91 | each literal gives its value (a fresh Number or String, the shared Booleans, `NULLVAL`); a name is `getVar`; a function literal keeps its parameters and body; a postfix operator has no table and fails |
| Eval.EvalFlow | src/runtime/evaluator.ts:67-97 | blocks, conditionals, loops and calls keep the invariant and never shrink the trace |
| Eval.EvalOperation | src/runtime/evaluator.ts:78-107 | operators, assignments, lists, indexing and shifts keep the invariant; methods, ranges and pops exist only in the current dialect |
| Eval.EvalItems | src/runtime/evaluator.ts:230 | the expressions in order, one value each, all in the world |
| Eval.EvalBlock | src/runtime/evaluator.ts:113-133 | an empty block is Null; a successful block ran as `BlockRan` says: its value is `BlockOutcome` of the children's values, none of them `undefined`, every child before the last examined went on, and it stops early only on an exit; each value is pushed on the trace; a Control value leaving with carry left loses one carry |
| Eval.BlockChild | src/runtime/evaluator.ts:113-130 | a child is evaluated and pushed; its failure is the block's failure; an `undefined` value is pushed and then fails as a host type error; any other value is kept, and leaves exactly when `ControlStep` says it exits |
| Eval.Settle | src/runtime/evaluator.ts:116-130 | pushes the value; `undefined` is refused (the type probe throws); otherwise it exits as `ControlStep` decides, and a Control value with carry left loses exactly one carry |
| Eval.EvalList | src/runtime/evaluator.ts:259-261 | a List literal is a fresh List with one item per element expression |
| Eval.EvalBinary | src/runtime/evaluator.ts:136-138 | both operands are evaluated, left first, and then the table entry gives the result |
| Eval.Combine | src/runtime/binaryOp.ts:27-140 | succeeds exactly when the operator is in the table and `BinaryOp` succeeds, and then denotes its result; an operator missing from the table is a host error |
| Eval.PreUnaryOp | src/runtime/UnaryOp.ts:13-42 | a missing operator is a host error; `*` on a name unsigns it; a Number operand's payload is stepped in place; other operands follow `PreUnary` |
| Eval.StepOperand | src/runtime/UnaryOp.ts:15-17 | the operand is evaluated with the earlier dialect, then the table entry is applied |
| Eval.ApplyUnary | src/runtime/UnaryOp.ts:13-42 | fails exactly on `undefined`; a Number's payload is changed by the step and the answer is a fresh Number; others denote `PreUnary` |
| Eval.EvalIf | src/runtime/evaluator.ts:263-268 | a failed condition is the failure; `undefined` is a host error and any other non-Boolean a type error; a Boolean selects exactly one branch, and the result is that branch's block outcome (`BlockRan`), Null for an empty branch, with the last child's value on top of the trace |
| Eval.EvalLoop | src/runtime/evaluator.ts:301-333 | the conditions seen are all true but the last (`RoundsLog`); a failed, `undefined` or non-Boolean last condition is the failure (`ConditionFailure`); a false one ends the loop with a fresh Number counting the completed iterations; a Null body value ends the loop; the 5001st completed iteration fails |
| Eval.Rounds | src/runtime/evaluator.ts:320-333 | the rounds after `init`, with the same condition log, failures, iteration count and limit |
| Eval.Spin | src/runtime/evaluator.ts:321-332 | every round but the last saw a true condition; the last condition decides a failure or a quiet stop; the loop counter equals the completed iterations of the body values seen, never above the limit |
| Eval.Round | src/runtime/evaluator.ts:322-329 | a non-Boolean condition fails before the body; a false condition, and only that, skips the body; the body runs only on a true condition; a Null body value, and only that, stops the loop; otherwise the step runs |
| Eval.EvalForEach | src/runtime/evaluator.ts:334-353 | for-in and for-of need a List and answer a fresh Number: for-of the length of the array at the end, for-in the length taken at the start, even after a Null body stopped it; each element visited has one body value, and only the last may be Null (`WalkLog`); the loop variable is gone afterwards |
| Eval.ForList | src/runtime/evaluator.ts:345-352 | a for-in or for-of loop over a List unbinds its variable and answers a fresh Number; for-in answers the number of indices taken at the start in every case, and visits fresh index Numbers, all of them unless a Null body stops it; the walk log is kept |
| Eval.Indices | src/runtime/evaluator.ts:345 | for-in walks fresh Numbers `0 .. length-1`, taken once |
| Eval.Walk | src/runtime/evaluator.ts:346-350 | for-in visits a prefix of the indices in order; one body value per element that got one, only a failure leaving the last without, only the last Null (`WalkLog`); a walk not stopped by a Null body reaches the end (for-of: at least the array's length at the end); a finished walk counts what it walked |
| Eval.WalkStep | src/runtime/evaluator.ts:346-350 | the next element (the next index, or what the array holds there now) is visited and logged; its body value is logged when the body ran, and a Null one, and only that, stops the walk |
| Eval.Visit | src/runtime/evaluator.ts:347-349 | a constant loop variable fails; otherwise the element is bound to it in this scope before the body runs; a failed body fails the loop; a Null body value, and only that, stops it |
| Eval.Unwind | src/runtime/evaluator.ts:351-352 | unsigns the loop variable (a ReferenceError when it is unbound), then answers a fresh Number with the count |
| Eval.EvalCall | src/runtime/evaluator.ts:229-253 | a call succeeds only on a Function with as many arguments as parameters, or on a native function; a Function call is worth its body block (`BlockRan`) |
| Eval.Apply | src/runtime/evaluator.ts:233-252 | a wrong argument count is an arity error; a callee that is no function is a type error (a host error on `undefined`); a constant parameter fails; otherwise a Function call is worth its body block (`BlockRan`), Null for an empty body |
| Eval.BindAll | src/runtime/evaluator.ts:242-244 | binding passes exactly when no parameter is a constant of the scope; then the scope's bindings are the old ones with each parameter bound in turn (`BindEach`); the constants are unchanged |
| Eval.BindEachLastWins | src/runtime/evaluator.ts:242-244 | a parameter is bound to the argument at its last position in the list |
| Eval.BindEachOthers | src/runtime/evaluator.ts:242-244 | a name that is no parameter keeps its old binding, or stays unbound |
| Eval.NativeCall | src/runtime/evaluator.ts:248 | a native function may change the scope and the world's values, keeps the invariant, never shrinks the trace, and answers only values whose payloads are in the world or fresh |
| Eval.EvalAssignment | src/runtime/evaluator.ts:152-227 | only a name or an index expression can be assigned; the result is the value written, never `undefined`; a name ends up bound to it in this scope |
| Eval.CompoundSource | src/runtime/evaluator.ts:155 | without an operator the right side is kept; with `op` it is `lhs op rhs` built from the original right side |
| Eval.AssignNodeAsWritten | src/runtime/evaluator.ts:155 | see Findings: the assignment node as evaluating it leaves it in the syntax tree |
| Eval.CompoundNodeDrifts | src/runtime/evaluator.ts:155 | a second evaluation of the same compound node evaluates a different right side than the first |
| Eval.IncrementTwiceAsWritten | src/runtime/interpreter.ts:139 | `i += 1` evaluated twice adds `i + 1` the second time |
| Eval.AssignIndex | src/runtime/evaluator.ts:162-224 | the indexable and then the index are evaluated, their failures first; `undefined` as indexable is a host error and another non-List a type error; on a List the write ends as `Stored` says against its contents just before it (a failure writes nothing); the index payloads and the source items taken are what the operands still hold unless they are the List written |
| Eval.AssignAt | src/runtime/evaluator.ts:165-224 | once the indexable is evaluated: the index's failure first, then the checks and the write as `Stored` says |
| Eval.StoreAt | src/runtime/evaluator.ts:169-224 | only a List can be indexed; the write ends as `Stored` says: the earlier dialect writes one clamped Number index, the current one refuses a non-Number index with the List unchanged and otherwise writes as `IndexWrite`; operands other than the List written are not touched |
| Eval.WriteOneIn | src/runtime/evaluator.ts:222 | `WriteOne` on a List of the world: the new contents are `WriteAt`, and every value reachable from a List stays in the world |
| Eval.WriteManyIn | src/runtime/evaluator.ts:206-219 | `WriteMany` on Lists of the world: a count mismatch changes nothing; otherwise the contents are `WriteAll` (aliasing included), and the world stays closed |
| Eval.WriteEarlier | src/runtime/interpreter.ts:153-164 | a non-Number index is a type error with nothing changed; a Number index is wrapped once, clamped into `[0, length]` and written |
| Eval.WriteCurrent | src/runtime/evaluator.ts:172-224 | non-Number indices fail with nothing changed; otherwise the write is `IndexWrite` |
| Eval.WriteAtIndices | src/runtime/evaluator.ts:185-224 | the outcome and the new contents of the List are exactly `IndexWrite` |
| Eval.EvalIndex | src/runtime/evaluator.ts:356-390 | the indexed operand's failure first; `undefined` is a host error and another non-List a type error, before the index is evaluated; then the index's failure, or the read as `ReadOutcome` says |
| Eval.IndexInto | src/runtime/evaluator.ts:362-390 | the index's failure is the failure; otherwise the read of the List at the index value ends as `ReadOutcome` says |
| Eval.ReadIndex | src/runtime/evaluator.ts:362-389 | `ReadOutcome`: `undefined` as index is a host error; the earlier dialect reads one Number index as `ReadOne` and refuses anything else; the current one reads as `IndicesRead` |
| Eval.ReadCurrent | src/runtime/evaluator.ts:362-389 | `IndicesRead`: a non-Number index is the first offender's failure; an index above the length is a RangeError; none gives `undefined`, one its element, several a List of the elements in order |
| Eval.ReadIn | src/runtime/evaluator.ts:375-389 | reads as `IndexRead` on a List of the world, and the answer joins the world |
| Eval.EvalShift | src/runtime/evaluator.ts:270-299 | only a name or an index expression can be shifted into; the value moved is `*left` (or `left` itself in the newer dialect when it is no name or index); a successful shift answers the old value read back and has written a defined value, which a name is then bound to |
| Eval.ReadBack | src/runtime/evaluator.ts:276-285 | the old value is read against a copy of the scope and leaves the real scope unchanged; a successful read is the answer; a failure other than running out of fuel reads as Null |
| Eval.EvalMethod | src/runtime/evaluator.ts:392-400 | a failed receiver is the failure; `undefined` is a host error; a non-Number is a type error; a name outside the table and Object's members is a runtime error; a found name is called once the arguments are evaluated (`MemberCall`): `toFixed`, `__proto__` and the setter definitions fail on the host, the getter lookups answer `undefined` (the only success), other Object members give unrepresentable host values |
| Eval.MemberCall | src/runtime/evaluator.ts:399 | calling a found member: only the getter lookups succeed, answering `undefined`; `toFixed`, `__proto__` and the setter definitions fail on the host |
| Eval.EvalRange | src/runtime/evaluator.ts:402-420 | a successful range is a fresh List |
| Eval.MakeRange | src/runtime/evaluator.ts:405-419 | all three bounds must be Numbers; a positive step gives the List of `RangeSpec`; a non-positive step diverges or gives an empty List |
| Eval.EvalPop | src/runtime/evaluator.ts:422-453 | a failed or `undefined` operand fails; any other non-List comes back unchanged; a List is popped as `PopOutcome` says: index failures in order, a RangeError with the List unchanged, or the removal of `PopAll` with `Pop`'s answer (`Bundled`) |
| Eval.PopInto | src/runtime/evaluator.ts:427-451 | the index operand's failure is the failure; otherwise the pop ends as `PopOutcome` says against the List's items once the operand is evaluated, a several-item answer being a fresh List |
| Eval.PopIn | src/runtime/evaluator.ts:441-451 | `Pop` on a List of the world: a RangeError with nothing removed, or the removal of `PopAll` answered as `Pop` answers (`Bundled`, fresh when several), and every value reachable from a List stays in the world |
| Eval.PopAt | src/runtime/evaluator.ts:428-451 | `undefined` as index is a host error; the indices must be Numbers, the first offender deciding the failure; an index above the length is a RangeError before anything is removed; otherwise the removal of `PopAll` with `Pop`'s answer (`Bundled`) |
| Lexer.CharTableDisjoint | src/frontend/lexer.ts:77-101 | no digit, letter, whitespace or quote is in the single-character table |
| Lexer.MultiTokensShortestFirst | src/frontend/lexer.ts:104-119 | the multi-character table is tried shortest entry first |
| Lexer.KeywordFrom | src/frontend/lexer.ts:129-136 | a match found from entry `j` on is an entry the text starts with |
| Lexer.Keyword | src/frontend/lexer.ts:129-136 | a matched entry is a prefix of the text, at least two characters long |
| Lexer.KeywordNone | src/frontend/lexer.ts:129-136 | no entry is matched exactly when the text starts with none |
| Lexer.KeywordFromFirst | src/frontend/lexer.ts:130-134 | the lookup answers the first entry in table order that matches |
| Lexer.KeywordFromNone | src/frontend/lexer.ts:130-135 | the lookup from entry `j` fails exactly when no later entry matches |
| Lexer.Run | src/frontend/lexer.ts:172-173 | every character before the answer is in the class, and the one at the answer (if any) is not |
| Lexer.StringBody | src/frontend/lexer.ts:151-165 | the corrected string body (see Findings): when it closes, it consumes at least one character and no more than the text holds |
| Lexer.BodyStep | src/frontend/lexer.ts:154-161 | one step of a string body consumes one or two characters |
| Lexer.StringBodyAsWritten | src/frontend/lexer.ts:151-165 | the string body as written: when it closes, it consumes at least one character and no more than the text holds |
| Lexer.StringBodyCloses | src/frontend/lexer.ts:153-165 | without backslashes the corrected scan succeeds exactly when a quote follows, and stops at the first one |
| Lexer.LineBreakSwallowsQuote | src/frontend/lexer.ts:157-159 | as written, a line feed just before the closing quote swallows it, where the corrected scan closes |
| Lexer.NextToken | src/frontend/lexer.ts:127-182 | a token consumes at least one character and is never EOF |
| Lexer.LexEndsWithEof | src/frontend/lexer.ts:184-185 | a token list ends with the one EOF token, and EOF appears nowhere else |
| Lexer.LexSkip | src/frontend/lexer.ts:137-138 | whitespace is dropped |
| Lexer.LexStep | src/frontend/lexer.ts:139-182 | a token is the next token followed by the tokens of the rest; a bad token fails the whole list |
| Lexer.SkipsProduceNothing | src/frontend/lexer.ts:137-138 | leading whitespace does not change the tokens |
| Lexer.PrefixesDistinct | src/frontend/lexer.ts:104-119 | every table entry has at least two characters, and any two entries differ in their first two |
| Lexer.KeywordFirstChars | src/frontend/lexer.ts:104-119 | every table entry starts with one of `f < > + - n t` |
| Lexer.KeywordUnique | src/frontend/lexer.ts:129-136 | at most one entry matches, so table order does not matter |
| Lexer.KeywordWins | src/frontend/lexer.ts:139-140 | a multi-character entry is one token wherever the text starts with it, even inside a longer word |
| Lexer.IncrementIsOneToken | src/frontend/lexer.ts:114 | `++` is one Increment token, not two Plus tokens |
| Lexer.RunIs | src/frontend/lexer.ts:172-173 | `Run` is the length of the maximal run |
| Lexer.NumberRun | src/frontend/lexer.ts:172-176 | a maximal run of digits is one Number token holding that text |
| Lexer.IdentifierRun | src/frontend/lexer.ts:172-179 | a maximal run of `[a-zA-Z_]` that starts with no table entry is one Identifier token |
| Lexer.StringToken | src/frontend/lexer.ts:151-169 | a quote starts a string literal token, or a syntax error when it never closes |
| Lexer.RunToken | src/frontend/lexer.ts:172-179 | the token a digit or letter run makes |
| Lexer.UnknownCharacterFails | src/frontend/lexer.ts:146-148 | a character no rule accepts is an error |
| Lexer.UnterminatedString | src/frontend/lexer.ts:163-165 | a string literal that never closes is a syntax error |
| Lexer.NoQuoteNoBody | src/frontend/lexer.ts:153-165 | without a quote, the string body never closes |
| Lexer.Tokenize | src/frontend/lexer.ts:122-186 | the character-queue loop yields exactly `Lex(source)` |
| Lexer.ReadToken | src/frontend/lexer.ts:128-180 | one step of the loop reads exactly `NextToken` |
| Lexer.ReadLiteral | src/frontend/lexer.ts:143-180 | a string, number or name token at the position is `NextToken` |
| Lexer.MatchKeyword | src/frontend/lexer.ts:129-136 | the table loop answers `Keyword` |
| Lexer.ScanString | src/frontend/lexer.ts:151-165 | the body loop answers `StringBody` |
| Lexer.ScanStep | src/frontend/lexer.ts:154-161 | one character step of the body loop is `BodyStep` |
| Lexer.ScanRun | src/frontend/lexer.ts:172-173 | the run loop stops where `Run` says |
| Parser.KindOf | src/frontend/parser.ts:36 | the parser's EOF kind comes from the lexer's EOF type and from no other |
| Parser.FromLexer | src/frontend/parser.ts:128 | the parser sees the lexer's tokens one for one, with the same text |
| Parser.Drop | src/frontend/parser.ts:52-54 | dropping a token other than EOF leaves a shorter list that still ends in EOF |
| Parser.ExpectKind | src/frontend/parser.ts:57-64 | `expect` succeeds exactly on the expected kind, answering that token and the rest; it always consumes |
| Parser.ParseInt | src/frontend/parser.ts:401 | `parseInt` has no value exactly when the text does not start with a digit |
| Parser.Symbols | src/frontend/parser.ts:171-173 | the parameters succeed exactly when every argument is an identifier, and are their names in order |
| Parser.Octothorps | src/frontend/parser.ts:428-431 | counts exactly the `#` tokens at the front |
| Parser.Expression | src/frontend/parser.ts:163-165 | an expression consumes at least one token |
| Parser.FuncExpr | src/frontend/parser.ts:167-177 | a function literal or the next level consumes tokens |
| Parser.BlockAfter | src/frontend/parser.ts:97-98 | `expect(closer)` then a block consumes tokens |
| Parser.LoopExpr | src/frontend/parser.ts:179-203 | a loop or the next level consumes tokens |
| Parser.WhileRest | src/frontend/parser.ts:185-188 | the `while` form consumes tokens |
| Parser.ForRest | src/frontend/parser.ts:194-201 | the `for` form consumes tokens |
| Parser.TradFor | src/frontend/parser.ts:85-107 | a traditional `for` consumes tokens |
| Parser.TradForStep | src/frontend/parser.ts:93-106 | the step and body consume tokens |
| Parser.ExprOr | src/frontend/parser.ts:89-96 | an optional clause keeps the queue well ended |
| Parser.NonTradFor | src/frontend/parser.ts:109-124 | a for-in or for-of consumes tokens |
| Parser.ForEachRest | src/frontend/parser.ts:114-123 | the enumerable and body consume tokens |
| Parser.ShiftExpr | src/frontend/parser.ts:205-213 | a shift chain consumes tokens |
| Parser.ShiftTail | src/frontend/parser.ts:207-211 | the chain keeps the queue well ended and never stops before a `->` |
| Parser.IfExpr | src/frontend/parser.ts:215-229 | a conditional or the next level consumes tokens |
| Parser.IfBranches | src/frontend/parser.ts:217-227 | the branches build an `if` on the given condition |
| Parser.PopExpr | src/frontend/parser.ts:231-243 | a pop or the next level consumes tokens |
| Parser.PopIndex | src/frontend/parser.ts:236-242 | the optional index keeps the queue well ended |
| Parser.AssignmentExpr | src/frontend/parser.ts:245-264 | an assignment or the next level consumes tokens |
| Parser.Assignment | src/frontend/parser.ts:252-261 | the operator and right side consume tokens |
| Parser.AssignOperator | src/frontend/parser.ts:252-259 | a compound operator is taken exactly when a binary operator leads, with its text; `&` marks a reference; what is left starts at `=` or `::` |
| Parser.RangeExpr | src/frontend/parser.ts:266-288 | a range consumes tokens; a leading `..` starts it at `ZERO` |
| Parser.RangeRest | src/frontend/parser.ts:272-286 | the range keeps its start and is inclusive exactly when `=` follows the `..` |
| Parser.RangeStep | src/frontend/parser.ts:281-285 | the optional step keeps the queue well ended |
| Parser.BinaryExpr | src/frontend/parser.ts:291-325 | a binary level consumes tokens |
| Parser.Operand | src/frontend/parser.ts:292-320 | an operand of a level consumes tokens |
| Parser.BinaryTail | src/frontend/parser.ts:294-298 | the chain keeps the queue well ended and never stops before an operator of its level |
| Parser.PostUnaryExpr | src/frontend/parser.ts:328-335 | the postfix level consumes tokens |
| Parser.PreUnaryExpr | src/frontend/parser.ts:337-344 | prefix operators nest to the right and consume tokens |
| Parser.CallExpr | src/frontend/parser.ts:346-354 | a call chain consumes tokens |
| Parser.CallTail | src/frontend/parser.ts:349-352 | the chain keeps the queue well ended and never stops before a `(` |
| Parser.Args | src/frontend/parser.ts:71-83 | an argument list consumes tokens |
| Parser.ArgItems | src/frontend/parser.ts:76-79 | the arguments of a non-empty list consume tokens |
| Parser.ArgsTail | src/frontend/parser.ts:77-79 | the arguments never stop before a `;`, and earlier ones are kept |
| Parser.IndexExpr | src/frontend/parser.ts:356-365 | an index chain consumes tokens |
| Parser.IndexTail | src/frontend/parser.ts:358-363 | the chain keeps the queue well ended and never stops before a `[` |
| Parser.MethodExpr | src/frontend/parser.ts:367-376 | a method chain consumes tokens |
| Parser.MethodTail | src/frontend/parser.ts:369-374 | the chain keeps the queue well ended and never stops before a `.` |
| Parser.Juxtaposition | src/frontend/parser.ts:378-384 | juxtaposition consumes tokens |
| Parser.FloatExpr | src/frontend/parser.ts:386-394 | a decimal literal consumes tokens |
| Parser.PrimaryExpr | src/frontend/parser.ts:396-436 | a primary expression consumes at least one token |
| Parser.ControlLiteralAt | src/frontend/parser.ts:425-432 | a control literal consumes itself and its `#` tokens |
| Parser.ControlRest | src/frontend/parser.ts:428-431 | the `#` tokens stop before EOF |
| Parser.BlockExpr | src/frontend/parser.ts:438-449 | a block consumes tokens; without `{` it holds exactly one expression |
| Parser.Braced | src/frontend/parser.ts:442-448 | a braced block consumes tokens |
| Parser.BlockItems | src/frontend/parser.ts:444-446 | the items stop only at `}` or EOF, and earlier items are kept |
| Parser.ListLiteral | src/frontend/parser.ts:451-466 | a list literal consumes tokens |
| Parser.ListItems | src/frontend/parser.ts:454-463 | the items stop only at `]` or EOF, and earlier items are kept |
| Parser.ListItemsStep | src/frontend/parser.ts:454-463 | one item step of a list literal: a failing item fails the list; after an item, a `;` is dropped and the loop goes on, a `]` lets the loop stop, and any other token is a syntax error |
| Parser.Program | src/frontend/parser.ts:132-134 | the program loop keeps the expressions parsed so far |
| Parser.Parse | src/frontend/parser.ts:127-136 | a lexer failure is the parse failure; a successful parse is one block |
| Parser.ProgramAccumulates | src/frontend/parser.ts:129-135 | the program is built in source order: earlier items, then the program of the rest |
| Parser.ProgramStep | src/frontend/parser.ts:132-134 | the program of a list is its first expression followed by the program of the rest |
| Parser.BlankSource | src/frontend/parser.ts:127-136 | whitespace alone parses to the empty block |
| Parser.TailStops | src/frontend/parser.ts:294 | a chain ends where the current token does not continue it |
| Parser.TailStep | src/frontend/parser.ts:294-298 | one more operator and operand extend the chain |
| Parser.LeftAssociative | src/frontend/parser.ts:291-325 | `a op b op c` groups as `(a op b) op c` on every binary level |
| Parser.TighterBindsFirst | src/frontend/parser.ts:291-325 | in `a op b op' c` with `op'` one level tighter, `b op' c` is grouped first |
| Parser.BlockOfOne | src/frontend/parser.ts:440 | without `{`, a block is the one expression that follows |
| Parser.BracedNeedsClose | src/frontend/parser.ts:442-448 | a braced block parses only when its items stop at a `}` |
| Parser.IfWithoutElse | src/frontend/parser.ts:220-225 | an `if` without `:` gets a false block holding only `null` |
| Parser.OpenRange | src/frontend/parser.ts:266-286 | `.. end` ranges from `ZERO`, excludes its end, and steps by `ONE` |
| Parser.CompoundAssignment | src/frontend/parser.ts:245-261 | `left op= right` is an assignment carrying `op`; `::` makes it constant |
| Parser.CompoundOperator | src/frontend/parser.ts:252-261 | an operator followed by `=` or `::` is an assignment head, and yields that assignment |
| Parser.Parser.constructor | src/frontend/parser.ts:41 | a parser starts with an empty token queue |
| Parser.Parser.Next | src/frontend/parser.ts:52-54 | `next()` removes and answers the current token |
| Parser.Parser.Expect | src/frontend/parser.ts:57-64 | `expect` answers and leaves the queue as `ExpectKind` |
| Parser.Parser.ProduceAST | src/frontend/parser.ts:127-136 | tokenizing, then parsing up to EOF, gives exactly `Parse(source)` |
| Parser.Parser.ParseExpr | src/frontend/parser.ts:163-165 | answers and leaves the queue as `Expression` |
| Parser.Parser.ParseFuncExpr | src/frontend/parser.ts:167-177 | answers and leaves the queue as `FuncExpr` |
| Parser.Parser.ParseLoopExpr | src/frontend/parser.ts:179-203 | answers and leaves the queue as `LoopExpr` |
| Parser.Parser.ParseWhile | src/frontend/parser.ts:185-188 | answers and leaves the queue as `WhileRest` |
| Parser.Parser.ParseFor | src/frontend/parser.ts:194-201 | answers and leaves the queue as `ForRest` |
| Parser.Parser.ParseTradFor | src/frontend/parser.ts:85-107 | answers and leaves the queue as `TradFor` |
| Parser.Parser.ParseTradForStep | src/frontend/parser.ts:93-106 | answers and leaves the queue as `TradForStep` |
| Parser.Parser.ParseExprOr | src/frontend/parser.ts:89-96 | answers and leaves the queue as `ExprOr` |
| Parser.Parser.ParseNonTradFor | src/frontend/parser.ts:109-124 | answers and leaves the queue as `NonTradFor` |
| Parser.Parser.ParseForEach | src/frontend/parser.ts:114-123 | answers and leaves the queue as `ForEachRest` |
| Parser.Parser.ParseBlockAfter | src/frontend/parser.ts:97-98 | answers and leaves the queue as `BlockAfter` |
| Parser.Parser.ParseShiftExpr | src/frontend/parser.ts:205-213 | the loop answers and leaves the queue as `ShiftExpr` |
| Parser.Parser.ParseIfExpr | src/frontend/parser.ts:215-229 | answers and leaves the queue as `IfExpr` |
| Parser.Parser.ParsePopExpr | src/frontend/parser.ts:231-243 | answers and leaves the queue as `PopExpr` |
| Parser.Parser.ParseAssignmentExpr | src/frontend/parser.ts:245-264 | answers and leaves the queue as `AssignmentExpr` |
| Parser.Parser.ParseRangeExpr | src/frontend/parser.ts:266-288 | answers and leaves the queue as `RangeExpr` |
| Parser.Parser.ParseRangeRest | src/frontend/parser.ts:272-286 | answers and leaves the queue as `RangeRest` |
| Parser.Parser.ParseRangeStep | src/frontend/parser.ts:281-285 | answers and leaves the queue as `RangeStep` |
| Parser.Parser.ParseBinaryExpr | src/frontend/parser.ts:291-325 | the loop answers and leaves the queue as `BinaryExpr` |
| Parser.Parser.ParseOperand | src/frontend/parser.ts:292-320 | answers and leaves the queue as `Operand` |
| Parser.Parser.ParsePostUnaryExpr | src/frontend/parser.ts:328-335 | answers and leaves the queue as `PostUnaryExpr` |
| Parser.Parser.ParsePreUnaryExpr | src/frontend/parser.ts:337-344 | answers and leaves the queue as `PreUnaryExpr` |
| Parser.Parser.ParseCallExpr | src/frontend/parser.ts:346-354 | the loop answers and leaves the queue as `CallExpr` |
| Parser.Parser.ParseArgs | src/frontend/parser.ts:71-83 | answers and leaves the queue as `Args` |
| Parser.Parser.ParseArgItems | src/frontend/parser.ts:76-79 | the loop answers and leaves the queue as `ArgItems` |
| Parser.Parser.ParseIndexExpr | src/frontend/parser.ts:356-365 | the loop answers and leaves the queue as `IndexExpr` |
| Parser.Parser.ParseMethod | src/frontend/parser.ts:367-376 | the loop answers and leaves the queue as `MethodExpr` |
| Parser.Parser.ParseJuxtaposition | src/frontend/parser.ts:378-384 | answers and leaves the queue as `Juxtaposition` |
| Parser.Parser.ParseFloat | src/frontend/parser.ts:386-394 | answers and leaves the queue as `FloatExpr` |
| Parser.Parser.ParsePrimaryExpr | src/frontend/parser.ts:396-436 | answers and leaves the queue as `PrimaryExpr` |
| Parser.Parser.ParseControlLiteral | src/frontend/parser.ts:425-432 | the carry loop answers and leaves the queue as `ControlLiteralAt` |
| Parser.Parser.ParseBlockExpr | src/frontend/parser.ts:438-449 | answers and leaves the queue as `BlockExpr` |
| Parser.Parser.ParseBraced | src/frontend/parser.ts:442-448 | the loop answers and leaves the queue as `Braced` |
| Parser.Parser.ParseListLiteral | src/frontend/parser.ts:451-466 | the loop answers and leaves the queue as `ListLiteral` |

## Left out

- The language's later design is not modelled, because this snapshot's code does not implement it. That design has a flat scope of binding stacks with access-limit counters, a cap on live variables, deep copies on assignment, and List broadcasting for arithmetic. The model follows the code: scopes form a parent chain with one binding per name, assignment aliases, and arithmetic needs two Numbers.
- Numbers are unbounded integers, not IEEE doubles.
  - `/` succeeds only when the quotient is an integer; any other quotient is
    the failure `Unrepresentable`.
  - `Math.round` is the identity on integers.
  - A decimal literal `a,b` is representable only when all digits of `b` are
    zero.
  - `toFixed` is not modelled beyond its table entry not being callable.
- `parseInt` reads only the leading digits of a Number token. The lexer makes
  Number tokens of digits alone, so the digits are the whole token.
- Escape sequences in string literals are kept as raw text. The source
  decodes them with `eval`, which is not modelled.
- The `Omega` key of the lexer's character table is two characters in the
  file's encoding. No single character reaches it, so the model leaves it
  unreachable.
- Printing: `error(...)` logs its arguments before throwing. Only the throw
  is modelled, as a failure of the evaluation.
- The runtime snapshot is partway through a rename.
  - `evaluator.ts` calls `assignVar` (with an `isRef` flag) and `env.clone()`,
    which `src/runtime/enviroment.ts` does not define. The model uses
    `assingVar` and ignores `isRef`. `clone` is modelled as a copy of the
    scope's bindings, constants and trace under the same parent.
  - The parser's token kinds that the lexer never produces (`SemiColon`,
    `DoubleArrow`, `While`, ...) exist in the model but never occur in a
    token list from `Lex`.
  - The postfix operator list `PostUnaryToken` is defined nowhere. The model
    treats it as empty, so the postfix level never loops.
- `Eval.NativeCall`: the native functions of `src/runtime/native.ts` are
  opaque. A native call is any failure, or a value whose payload is in the
  world or fresh. Like `set` (`src/runtime/native.ts:159-176`) it may bind a
  name in the caller's scope. Its frame allows any change to the scope and
  to the world's values, as `eval` (`src/runtime/native.ts:142-152`), which
  runs a program in the caller's scope, may make. What each native computes
  is not modelled.
- `Env.Enviroment.Root`: `src/runtime/enviroment.ts:3` imports the native
  table `NATIVEFUNC` from `./nativeFunc`, which this snapshot does not
  contain. The model takes the names of the `NATIVEFUNC` table in
  `src/runtime/native.ts:72-177` (`Env.NATIVE_NAMES`).
- `Values.Chars`: a string is split into Unicode scalar values, one
  Character each. JavaScript's `split("")` (`src/runtime/value.ts:194`)
  splits into UTF-16 code units, so a character outside the Basic
  Multilingual Plane (such as an emoji) is two Characters in the source and
  one in the model. Lengths, index reads, pops and for-of counts of such
  strings differ. `Values.StringVal` inherits this.
- `toggleScream`, called at `src/runtime/evaluator.ts:276` and `:285` and at
  `src/runtime/interpreter.ts:216` and `:223` (and imported at line 48 and
  line 44), is defined nowhere in `src/utils.ts`. The model treats it as a
  no-op.
- `BinaryOps.SamePayload`: two Function values are equal when their
  parameters and bodies are equal trees. JavaScript compares the body
  `BlockLiteral` objects by identity, so two separately written but equal
  function literals differ in the source.
- `Eval.ReadBack`: in `evaluator.ts` a failure is caught only when its name
  is `XperError`, while `error` in `src/utils.ts` throws a plain `Error`.
  The model catches every failure the way `interpreter.ts` does, except
  running out of fuel.
- `isConst` on values: the probe `value.isConst` is modelled only as a
  failure on `undefined`. No value in the model carries the flag.
- Recursion depth: evaluation takes `fuel`, and a call that exhausts it
  fails with `OutOfFuel`. JavaScript's own stack limit is not modelled.
- A range with a non-positive step whose guard holds at the start loops
  forever in the source. The model reports it as the failure `Diverges`.
- `Eval.EvalMethod`: the arguments' side effects before the call are not
  described. At `src/runtime/evaluator.ts:399` an inherited Object member
  is called with the argument array and the scope. The model follows what
  each does: `__lookupGetter__` and `__lookupSetter__` answer `undefined`;
  `__defineGetter__` and `__defineSetter__` throw a host TypeError, because
  the scope is no function. The others (`toString`, `valueOf`,
  `hasOwnProperty`, ...) answer a JavaScript string, boolean or object, not a
  value of this language, which the model reports as the failure
  `Unrepresentable`.
- `Eval.EvalAssignment` runs the corrected compound assignment of the
  "## Findings" table (`Eval.CompoundSource`): every run of `x op= e`
  evaluates `x op e`. The rewrite of the node in place at
  `src/runtime/evaluator.ts:155` is modelled only by
  `Eval.AssignNodeAsWritten`.
- `Lexer.NextToken` runs the corrected string-literal scan of the
  "## Findings" table (`Lexer.StringBody`): a line break becomes `\n` and no
  other character is dropped. The scan as written at
  `src/frontend/lexer.ts:157-159` is modelled only by
  `Lexer.StringBodyAsWritten`.
- `Lexer.Tokenize` lexes string literals with the corrected scan, through
  `Lexer.NextToken`.
- `Lexer.ScanString` is the loop of the corrected scan (`Lexer.StringBody`),
  not of the scan as written.
- `Lexer.ScanStep` is one step of the corrected scan (`Lexer.BodyStep`).
- `Parser.At`: the parser calls `Token.isTypes` (`src/frontend/parser.ts:49`
  and `:60`), while `src/frontend/lexer.ts` defines only `isType`. The model
  reads both as "the token has one of the kinds".
- `Parser.AtOperator`: `src/frontend/parser.ts:34` imports `AddOpToken`,
  `LogicOpToken`, `MultiOpToken` and `BinaryOpToken`. In
  `src/runtime/binaryOp.ts:11-21` the lists are named `LogicalOpToken`,
  `AdditiveOpToken` and `MultiplicativeToken`, and no `BinaryOpToken`
  exists. The model uses those three lists, and their concatenation for the
  binary operators (`LOGICAL_OPS`, `ADDITIVE_OPS`, `MULTIPLICATIVE_OPS`,
  `BINARY_OPS` in `parser.dfy`).
- `Parser.PreUnaryExpr`: `src/frontend/parser.ts:35` imports `PreUnaryTokens`,
  while `src/runtime/UnaryOp.ts:7` exports `PreUnaryOpTokens`. The model uses
  the exported list (`PRE_UNARY_OPS`).
- `Eval.NewString`: `src/runtime/evaluator.ts:45` and `:64` build strings with
  `MKSTRING`, which `src/runtime/value.ts` does not define. The model builds
  them with the String constructor of `value.ts` (`Values.StringVal`).
- `Eval.PreUnaryOp`: `src/runtime/evaluator.ts:291` applies `PreUnaryOp["*"]`,
  which `src/runtime/UnaryOp.ts:13-42` does not define. The model gives `*`
  the meaning of unsigning: on a name it reads the value through the scope
  chain and removes this scope's binding; on anything else it is a host
  error.
- `Eval.EvalRange` states the type checks and the shape of the result. The
  List it builds is stated by `MakeRange`, not repeated at the outer level.
- `Eval.EvalIf`, `Eval.EvalLoop`, `Eval.Rounds`, `Eval.Spin`, `Eval.Round`,
  `Eval.EvalCall`, `Eval.Apply`, `Eval.EvalShift`, `Eval.ReadBack`,
  `Eval.EvalBlock`, `Eval.BlockChild`, `Eval.EvalBinary`, `Eval.StepOperand`,
  `Eval.PreUnaryOp`, `Eval.EvalAssignment`, `Eval.EvalForEach`,
  `Eval.ForList`, `Eval.Walk`, `Eval.WalkStep`, `Eval.Visit`, `Eval.EvalMethod`,
  `Eval.EvalIndex`, `Eval.IndexInto`, `Eval.AssignIndex`, `Eval.AssignAt`,
  `Eval.EvalPop` and `Eval.PopInto` tie their result to the results of their sub-evaluations (the condition, the
  body values, the block's child values and carries, the old value read
  back, the operands, the index operand, the elements visited, a List's
  contents just before a write). Those results are ghost outputs of the method. `Evaluate` has no
  reference function over the expression tree, so no contract states what a
  sub-expression evaluates to.
- `Eval.EvalCall` and `Eval.Apply`: the value of a native call is not
  described beyond its being in the world or fresh.
- `Eval.Walk`: for for-of, the elements visited are not tied to the
  contents of the backing array. The body may change the array, and the
  model states only that a walk not stopped early visited at least as
  many elements as the array holds at the end.
- The parser's error messages are not modelled, only that parsing fails.
  When `current()` reads past the final EOF (in `parseTradFor`), the model
  fails with a host error.

## Findings

| source | as written | input that shows it | evidently intended | confidence | as-written member | corrected member |
|---|---|---|---|---|---|---|
| src/frontend/lexer.ts:157-159 | after a CR or an LF inside a string literal, the next character is dropped unchecked, which is right only for the LF of a CR LF pair | `"a` LF `"`: the LF swallows the closing quote, and the literal never closes (syntax error) | a line break (CR LF, lone CR or lone LF) becomes `\n` and nothing else is dropped | not executed | Lexer.StringBodyAsWritten / Lexer.LineBreakSwallowsQuote | Lexer.StringBody / Lexer.StringBodyCloses |
| src/runtime/evaluator.ts:155 | a compound assignment overwrites its own node's right side with `lhs op rhs` before evaluating it; the same line is at src/runtime/interpreter.ts:139 | `i += 1` in a loop body, or in a function called twice: the second run evaluates `i + (i + 1)` | every run of `x op= e` evaluates `x op e`, leaving the tree unchanged | not executed | Eval.AssignNodeAsWritten / Eval.CompoundNodeDrifts | Eval.CompoundSource |
