/** The binding store of the interpreter (src/runtime/enviroment.ts): a scope
    with its own variables, the names it holds as constants, a trace of the
    values its blocks produced, and an optional enclosing scope. */
module Env {
  import opened Utils
  import opened Values

  /** The names of the native functions every root scope binds, in the order
      the native table declares them (src/runtime/native.ts). */
  const NATIVE_NAMES: seq<string> :=
    ["log", "print", "math", "random", "map", "type", "str", "parse", "eval", "get", "set"]

  lemma NativeNamesDistinct()
    ensures forall i, j :: 0 <= i < j < |NATIVE_NAMES| ==> NATIVE_NAMES[i] != NATIVE_NAMES[j]
  {
  }

  class Enviroment {
    /** The enclosing scope; the source never reassigns it. */
    const parent: Enviroment?
    var variables: map<string, Value>
    var constances: set<string>
    /** Every value a block evaluated in this scope produced, newest first. */
    var evalStack: seq<Value>

    /** This scope and every enclosing one. */
    ghost const Repr: set<Enviroment>
    /** The number of enclosing scopes. */
    ghost const Depth: nat

    /** The parent chain is finite and each scope lies outside its parents. */
    ghost predicate Valid()
      decreases Depth
    {
      this in Repr &&
      (parent == null ==> Repr == {this} && Depth == 0) &&
      (parent != null ==>
        parent.Depth < Depth && Repr == {this} + parent.Repr && this !in parent.Repr && parent.Valid())
    }

    /** Every scope of the chain is valid, and scopes nearer the start of the
        chain have a larger depth. */
    lemma {:induction false} ChainFacts()
      requires Valid()
      ensures forall e :: e in Repr ==> e.Valid() && e.Repr <= Repr && e.Depth <= Depth
      ensures forall e :: e in Repr && e != this ==> e.Depth < Depth && parent != null && e in parent.Repr
      decreases Depth
    {
      if parent != null {
        parent.ChainFacts();
      }
    }

    /** The root scope: binds every native function name as a constant. */
    constructor Root()
      ensures Valid() && parent == null
      ensures forall n :: n in variables <==> n in NATIVE_NAMES
      ensures forall n :: n in variables ==> variables[n] == NativeFunctionV(n)
      ensures constances == set n | n in NATIVE_NAMES
      ensures evalStack == []
    {
      parent := null;
      variables := map[];
      constances := {};
      evalStack := [];
      Repr := {this};
      Depth := 0;
      new;
      NativeNamesDistinct();
      var k := 0;
      while k < |NATIVE_NAMES|
        invariant 0 <= k <= |NATIVE_NAMES|
        invariant Valid() && parent == null && evalStack == []
        invariant forall n :: n in variables <==> n in NATIVE_NAMES[..k]
        invariant forall n :: n in variables ==> variables[n] == NativeFunctionV(n)
        invariant constances == set n | n in NATIVE_NAMES[..k]
      {
        var name := NATIVE_NAMES[k];
        assert name !in NATIVE_NAMES[..k];
        var _ := AssingVar(name, NativeFunctionV(name), true);
        assert NATIVE_NAMES[..k + 1] == NATIVE_NAMES[..k] + [name];
        k := k + 1;
      }
      assert NATIVE_NAMES[..k] == NATIVE_NAMES;
    }

    /** `new Enviroment(parentEnv)`: an empty scope inside `p`. */
    constructor Child(p: Enviroment)
      requires p.Valid()
      ensures Valid() && parent == p
      ensures variables == map[] && constances == {} && evalStack == []
    {
      parent := p;
      variables := map[];
      constances := {};
      evalStack := [];
      Repr := {this} + p.Repr;
      Depth := p.Depth + 1;
    }

    /** `env.clone()`: a new scope with copies of `other`'s variables,
        constants and trace, under the same parent. Later changes to either
        scope do not reach the other. */
    constructor Clone(other: Enviroment)
      requires other.Valid()
      ensures Valid() && parent == other.parent
      ensures variables == other.variables && constances == other.constances && evalStack == other.evalStack
    {
      parent := other.parent;
      variables := other.variables;
      constances := other.constances;
      evalStack := other.evalStack;
      Repr := if other.parent == null then {this} else {this} + other.parent.Repr;
      Depth := other.Depth;
    }

    /** `resolve(name)`: the nearest scope of the chain that binds `name`, or
        null when none does. */
    function Resolve(name: string): (r: Enviroment?)
      requires Valid()
      reads Repr
      decreases Depth
      ensures name in variables ==> r == this
      ensures r != null ==> r in Repr && name in r.variables
      ensures r == null <==> forall e :: e in Repr ==> name !in e.variables
      ensures r != null ==> forall e :: e in Repr && e.Depth > r.Depth ==> name !in e.variables
    {
      ChainFacts();
      if name in variables then this
      else if parent == null then null
      else parent.Resolve(name)
    }

    /** `getVar(name)`: the value bound by the nearest scope that has the
        name; a ReferenceError when no scope has it. */
    function GetVar(name: string): (r: Result<Value>)
      requires Valid()
      reads Repr
      ensures name in variables ==> r == Ok(variables[name])
      ensures r.Err? <==> forall e :: e in Repr ==> name !in e.variables
      ensures r.Err? ==> r.error == ReferenceError
      ensures r.Ok? ==> Resolve(name) != null && r.value == Resolve(name).variables[name]
    {
      var env := Resolve(name);
      if env == null then Err(ReferenceError) else Ok(env.variables[name])
    }

    /** `isConstant(name)`: whether the nearest scope binding the name lists
        it as a constant. */
    function IsConstant(name: string): (r: bool)
      requires Valid()
      reads Repr
      ensures name in variables ==> (r <==> name in constances)
      ensures (forall e :: e in Repr ==> name !in e.variables) ==> !r
      ensures name !in variables ==> (r <==> parent != null && parent.IsConstant(name))
    {
      var env := Resolve(name);
      env != null && name in env.constances
    }

    /** `assingVar(name, value, isConst)`: binds in this scope only. Fails,
        changing nothing, when this scope holds the name as a constant. */
    method AssingVar(name: string, value: Value, isConst: bool) returns (r: Result<Value>)
      modifies this
      ensures name in old(constances) ==>
                r == Err(ConstantError) && variables == old(variables) && constances == old(constances)
      ensures name !in old(constances) ==>
                r == Ok(value) && variables == old(variables)[name := value] &&
                constances == (if isConst then old(constances) + {name} else old(constances))
      ensures evalStack == old(evalStack)
    {
      if name in constances {
        return Err(ConstantError);
      }
      if isConst {
        constances := constances + {name};
      }
      variables := variables[name := value];
      r := Ok(value);
    }

    /** `pushStack(value)`: puts `value` in front of the trace and hands it
        back unchanged. */
    method PushStack(value: Value) returns (r: Value)
      modifies this
      ensures r == value
      ensures evalStack == [value] + old(evalStack) && |evalStack| == |old(evalStack)| + 1
      ensures variables == old(variables) && constances == old(constances)
    {
      evalStack := [value] + evalStack;
      r := value;
    }

    /** `unsignVar(name)`: reads the name through the chain, removes this
        scope's binding of it, and returns the value read. Its constant mark
        here is dropped only when, after the removal, the name resolves to a
        constant of an enclosing scope; a constant of this scope with no outer
        binding therefore stays marked. */
    method UnsignVar(name: string) returns (r: Result<Value>)
      requires Valid()
      modifies this
      ensures old(GetVar(name)).Err? ==>
                r == Err(ReferenceError) && variables == old(variables) && constances == old(constances)
      ensures old(GetVar(name)).Ok? ==>
                r == old(GetVar(name)) && variables == old(variables) - {name} &&
                constances == (if parent != null && parent.IsConstant(name) then old(constances) - {name}
                               else old(constances))
      ensures r.Ok? && name in old(constances) && (parent == null || parent.Resolve(name) == null) ==>
                name !in variables && name in constances
      ensures evalStack == old(evalStack)
    {
      r := GetVar(name);
      if r.Ok? {
        // once `name` leaves this scope, `isConstant` answers from the enclosing scopes
        var inherited := parent != null && parent.IsConstant(name);
        variables := variables - {name};
        if inherited {
          constances := constances - {name};
        }
      }
    }
  }
}
