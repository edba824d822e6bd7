/** Runtime values (src/runtime/value.ts).

    A value is a tag with a payload. The payloads the source mutates in place
    live in heap objects, so aliasing is as in the source:
    - a Number's scalar in a `NumberBox` (`++x` changes it);
    - a List's backing array in a `ListBox` (index writes and `splice` change
      it, `iterate()` hands it out);
    - a Control value's carry count in a `ControlBox` (a block decrements it).
    Numbers are integers; see README for what that leaves out. */
module Values {
  import opened Utils
  import opened Ast

  /** `ValueType`, in the source's order (`NoneType` is the source's `None`). */
  datatype ValueType = Null | Number | Boolean | NativeFuntion | Function | Character | List | Control | NoneType

  /** The payload of a `NumberVal`. */
  class NumberBox {
    var value: int

    constructor (v: int)
      ensures value == v
    {
      value := v;
    }
  }

  /** The backing array of a `ListVal`. `items` are its elements (a hole reads
      as `Undefined`); `outside` holds what was stored under a negative key,
      which a JavaScript array keeps as a property and not as an element. */
  class ListBox {
    var items: seq<Value>
    var outside: map<int, Value>

    constructor (elements: seq<Value>)
      ensures items == elements && outside == map[]
    {
      items := elements;
      outside := map[];
    }
  }

  /** A `ControlVal`: the control word and its mutable carry count. */
  class ControlBox {
    const control: string
    var carryCount: int

    /** `new ControlVal(type, carryCount)` stores both unchanged. */
    constructor (t: string, n: int)
      ensures control == t && carryCount == n
    {
      control := t;
      carryCount := n;
    }
  }

  /** A runtime value. `Undefined` is JavaScript's `undefined`, which the
      interpreter reads out of an array hole or past its end and which fails
      as soon as its tag is inspected. A function value keeps its parameter
      names and body; the environment it captures is never used by a call
      and is not kept. */
  datatype Value =
    | NullV
    | NumberV(num: NumberBox)
    | BooleanV(b: bool)
    | CharacterV(ch: string)
    | ListV(list: ListBox)
    | FunctionV(parameter: seq<string>, body: seq<Expr>)
    | NativeFunctionV(name: string)
    | ControlV(ctrl: ControlBox)
    | Undefined
  {
    /** The heap object holding this value's payload, if any. */
    function Footprint(): set<object> {
      match this
      case NumberV(n) => {n}
      case ListV(l) => {l}
      case ControlV(c) => {c}
      case _ => {}
    }
  }

  const NULLVAL: Value := NullV
  const TRUEVAL: Value := BooleanV(true)
  const FALSEVAL: Value := BooleanV(false)

  /** `value.type`; reading it off `undefined` is a host error. */
  function TypeOf(v: Value): ValueType
    requires !v.Undefined?
  {
    match v
    case NullV => Null
    case NumberV(_) => Number
    case BooleanV(_) => Boolean
    case CharacterV(_) => Character
    case ListV(_) => List
    case FunctionV(_, _) => Function
    case NativeFunctionV(_) => NativeFuntion
    case ControlV(_) => Control
  }

  /** `isValueTypes(value, ...valueType)`: `valueType.some(t => value.type === t)`. */
  function IsValueTypes(v: Value, ts: seq<ValueType>): (r: bool)
    requires !v.Undefined?
    ensures r <==> TypeOf(v) in ts
  {
    if ts == [] then false
    else TypeOf(v) == ts[0] || IsValueTypes(v, ts[1..])
  }

  /** `MKBOOL(b)`: the shared `TRUEVAL` or `FALSEVAL`. */
  function MkBool(b: bool): (r: Value)
    ensures r.BooleanV? && r.b == b
    ensures b ==> r == TRUEVAL
    ensures !b ==> r == FALSEVAL
  {
    if b then TRUEVAL else FALSEVAL
  }

  /** A result computed by an operator before it is turned into a value: a
      new Number, a shared Boolean, or `NULLVAL`. */
  datatype Prim = PNumber(n: int) | PBool(truth: bool) | PNull

  /** Turns a computed result into a value; a Number gets a new payload. */
  method Materialize(p: Prim) returns (v: Value)
    ensures p.PNumber? ==> v.NumberV? && fresh(v.num) && v.num.value == p.n
    ensures p.PBool? ==> v == MkBool(p.truth)
    ensures p.PNull? ==> v == NULLVAL
  {
    match p
    case PNumber(n) =>
      var box := new NumberBox(n);
      v := NumberV(box);
    case PBool(b) =>
      v := MkBool(b);
    case PNull =>
      v := NULLVAL;
  }

  // ---------------------------------------------------------------------
  // Integer arithmetic as JavaScript performs it on integral Numbers

  const TWO_32: int := 0x1_0000_0000
  const TWO_31: int := 0x8000_0000

  /** ECMAScript ToInt32: wrap into the signed 32-bit range. */
  function ToInt32(x: int): (r: int)
    ensures -TWO_31 <= r < TWO_31
    ensures (x - r) % TWO_32 == 0
    ensures -TWO_31 <= x < TWO_31 ==> r == x
  {
    Signed32(x % TWO_32)
  }

  /** Reads an unsigned 32-bit pattern as a signed one. */
  function Signed32(m: int): int
    requires 0 <= m < TWO_32
  {
    if m >= TWO_31 then m - TWO_32 else m
  }

  /** Bitwise and of two non-negative integers, lowest bit first. */
  function AndBits(m: nat, n: nat): (r: nat)
    ensures r <= m && r <= n
    decreases m
  {
    if m == 0 || n == 0 then 0
    else (if m % 2 == 1 && n % 2 == 1 then 1 else 0) + 2 * AndBits(m / 2, n / 2)
  }

  /** `a & b`: both operands through ToInt32, then bitwise and. */
  function BitAnd32(a: int, b: int): (r: int)
    ensures -TWO_31 <= r < TWO_31
  {
    Signed32(AndBits(a % TWO_32, b % TWO_32))
  }

  /** `&` looks at its operands only through ToInt32. */
  lemma BitAnd32Wraps(a: int, b: int)
    ensures BitAnd32(a, b) == BitAnd32(ToInt32(a), ToInt32(b))
  {
    SameWrap(a);
    SameWrap(b);
  }

  /** `a & a` is `a` wrapped into the signed 32-bit range. */
  lemma BitAnd32Self(a: int)
    ensures BitAnd32(a, a) == ToInt32(a)
  {
    AndBitsSelf(a % TWO_32);
  }

  /** Every bit of `m` survives an and with itself. */
  lemma {:induction false} AndBitsSelf(m: nat)
    ensures AndBits(m, m) == m
    decreases m
  {
    if m != 0 {
      AndBitsSelf(m / 2);
    }
  }

  /** An integer and its ToInt32 image agree modulo 2^32. */
  lemma SameWrap(x: int)
    ensures ToInt32(x) % TWO_32 == x % TWO_32
  {
    var m := x % TWO_32;
    if m >= TWO_31 {
      assert (m - TWO_32) % TWO_32 == m;
    }
  }

  /** The quotient of `a` by `b` rounded toward zero. */
  function TruncQuot(a: int, b: int): int
    requires b != 0
  {
    var d := if b > 0 then b else -b;
    var q := if a >= 0 then a / d else -((-a) / d);
    if b > 0 then q else -q
  }

  /** `a % b` on numbers: the remainder takes the sign of the dividend and
      completes the quotient rounded toward zero. */
  function TruncRem(a: int, b: int): (r: int)
    requires b != 0
    ensures a >= 0 ==> 0 <= r < (if b > 0 then b else -b)
    ensures a < 0 ==> -(if b > 0 then b else -b) < r <= 0
    ensures a == TruncQuot(a, b) * b + r
  {
    var d := if b > 0 then b else -b;
    var n := if a >= 0 then a else -a;
    var q, m := n / d, n % d;
    assert n == q * d + m;
    assert TruncQuot(a, b) * b == (if a >= 0 then q * d else -(q * d));
    if a >= 0 then m else -m
  }

  /** `a / b` when the quotient is an integer; otherwise the result is not a
      Number this model can hold (a fraction, an infinity or NaN). */
  function ExactDiv(a: int, b: int): (r: Option<int>)
    ensures r.Some? <==> b != 0 && a % b == 0
    ensures r.Some? ==> r.value * b == a
  {
    if b != 0 && a % b == 0 then Some(a / b) else None
  }

  // ---------------------------------------------------------------------
  // Capability methods of NumberVal and TRUEVAL

  datatype Capability = Add | Sub | Mul | Div | Mod | Greater | Lesser | GreaterEq | LesserEq | Equal | And | Or

  /** Which values carry which optional capability method: a NumberVal has
      the arithmetic and comparison ones, TRUEVAL has `and` and `or`,
      FALSEVAL and every other value have none. */
  predicate HasCapability(v: Value, c: Capability) {
    match v
    case NumberV(_) => c != And && c != Or
    case BooleanV(b) => b && (c == And || c == Or)
    case _ => false
  }

  /** Calls capability `c` of `v` with right operand `rhs`. `Ok(None)` is the
      method returning `undefined` because `rhs` has the wrong tag. */
  function InvokeCapability(v: Value, c: Capability, rhs: Value): (r: Result<Option<Prim>>)
    requires HasCapability(v, c)
    reads v.Footprint(), rhs.Footprint()
    ensures rhs.Undefined? ==> r == Err(HostTypeError)
    ensures v.NumberV? && !rhs.Undefined? && !rhs.NumberV? ==> r == Ok(None)
    ensures v.BooleanV? && !rhs.Undefined? && !rhs.BooleanV? ==> r == Ok(None)
    ensures r.Ok? && r.value.Some? ==> (v.NumberV? && rhs.NumberV?) || (v.BooleanV? && rhs.BooleanV?)
    ensures r.Err? && !rhs.Undefined? ==> v.NumberV? && rhs.NumberV? && (c == Div || c == Mod)
    ensures v.NumberV? && rhs.NumberV? && c != Div && c != Mod ==> r.Ok? && r.value.Some?
    ensures v.NumberV? && rhs.NumberV? && (c == Greater || c == Lesser || c == GreaterEq || c == LesserEq || c == Equal) ==>
              r.Ok? && r.value.Some? && r.value.value.PBool?
    ensures v.BooleanV? && rhs.BooleanV? ==> r == Ok(Some(PBool(if c == And then rhs.b else true)))
  {
    if rhs.Undefined? then Err(HostTypeError)
    else match v
      case NumberV(box) =>
        if !rhs.NumberV? then Ok(None)
        else
          var a, b := box.value, rhs.num.value;
          (match c
          case Add => Ok(Some(PNumber(a + b)))
          case Sub => Ok(Some(PNumber(a - b)))
          case Mul => Ok(Some(PNumber(a * b)))
          case Div => (match ExactDiv(a, b) case Some(q) => Ok(Some(PNumber(q))) case None => Err(Unrepresentable))
          case Mod => if b == 0 then Err(Unrepresentable) else Ok(Some(PNumber(TruncRem(a, b))))
          case Greater => Ok(Some(PBool(a > b)))
          case Lesser => Ok(Some(PBool(a < b)))
          case GreaterEq => Ok(Some(PBool(a >= b)))
          case LesserEq => Ok(Some(PBool(a <= b)))
          case Equal => Ok(Some(PBool(a == b))))
      case BooleanV(x) =>
        if !rhs.BooleanV? then Ok(None)
        else if c == And then Ok(Some(PBool(x && rhs.b)))
        else Ok(Some(PBool(x || rhs.b)))
  }

  // ---------------------------------------------------------------------
  // ListVal, StringVal, genEnumerable

  /** `ListVal.length()`: the backing array's length. */
  function Length(l: ListBox): (n: nat)
    reads l
    ensures n == |l.items|
  {
    |l.items|
  }

  /** `ListVal.iterate()` returns the backing array itself, not a copy: the
      caller sees every later change to it. */
  function Iterate(l: ListBox): (a: ListBox)
    ensures a == l
  {
    l
  }

  /** `genEnumerable(n)`: `n` new Numbers `0, 1, ..., n-1`, in order. */
  method GenEnumerable(n: nat) returns (r: seq<Value>)
    ensures |r| == n
    ensures forall i :: 0 <= i < n ==> r[i].NumberV? && fresh(r[i].num) && r[i].num.value == i
    ensures forall i, j :: 0 <= i < j < n ==> r[i].num != r[j].num
  {
    r := [];
    var k := 0;
    while k < n
      invariant 0 <= k <= n && |r| == k
      invariant forall i :: 0 <= i < k ==> r[i].NumberV? && fresh(r[i].num) && r[i].num.value == i
      invariant forall i, j :: 0 <= i < j < k ==> r[i].num != r[j].num
    {
      var box := new NumberBox(k);
      r := r + [NumberV(box)];
      k := k + 1;
    }
  }

  /** `ListVal.enumerate()`: `genEnumerable(this.length())`. */
  method Enumerate(l: ListBox) returns (r: seq<Value>)
    ensures |r| == |l.items|
    ensures forall i :: 0 <= i < |r| ==> r[i].NumberV? && fresh(r[i].num) && r[i].num.value == i
    ensures forall i, j :: 0 <= i < j < |r| ==> r[i].num != r[j].num
  {
    r := GenEnumerable(Length(l));
  }

  /** The element sequence of `new StringVal(s)`: one CharacterVal per
      character of `s`, in order. */
  function Chars(s: string): (r: seq<Value>)
    ensures |r| == |s|
    ensures forall i :: 0 <= i < |s| ==> r[i] == CharacterV([s[i]])
  {
    if s == [] then [] else [CharacterV([s[0]])] + Chars(s[1..])
  }

  /** `new StringVal(s)`: a List over a new array of those characters. */
  method StringVal(s: string) returns (v: Value)
    ensures v.ListV? && fresh(v.list)
    ensures v.list.items == Chars(s) && v.list.outside == map[]
  {
    var box := new ListBox(Chars(s));
    v := ListV(box);
  }

  // ---------------------------------------------------------------------
  // The heap the interpreter works on

  /** The payload objects the interpreter may read and change. */
  datatype World = World(nums: set<NumberBox>, lists: set<ListBox>, ctrls: set<ControlBox>)

  /** The payload of `v`, if it has one, belongs to `w`. */
  predicate ValueIn(v: Value, w: World) {
    match v
    case NumberV(n) => n in w.nums
    case ListV(l) => l in w.lists
    case ControlV(c) => c in w.ctrls
    case _ => true
  }

  predicate SeqIn(s: seq<Value>, w: World) {
    forall i :: 0 <= i < |s| ==> ValueIn(s[i], w)
  }

  predicate MapIn<K>(m: map<K, Value>, w: World) {
    forall k :: k in m ==> ValueIn(m[k], w)
  }

  predicate ResultIn(r: Result<Value>, w: World) {
    r.Ok? ==> ValueIn(r.value, w)
  }

  /** Every list of `w` holds only values whose payloads are in `w`. */
  ghost predicate HeapClosed(w: World)
    reads w.lists
  {
    forall l :: l in w.lists ==> SeqIn(l.items, w) && MapIn(l.outside, w)
  }

  predicate SubWorld(w: World, w': World) {
    w.nums <= w'.nums && w.lists <= w'.lists && w.ctrls <= w'.ctrls
  }

  /** `w'` extends `w` with newly allocated objects only. */
  twostate predicate Grew(w: World, new w': World) {
    SubWorld(w, w') && fresh(w'.nums - w.nums) && fresh(w'.lists - w.lists) && fresh(w'.ctrls - w.ctrls)
  }

  function AddNum(w: World, n: NumberBox): (w': World)
    ensures SubWorld(w, w') && n in w'.nums
  {
    w.(nums := w.nums + {n})
  }

  function AddList(w: World, l: ListBox): (w': World)
    ensures SubWorld(w, w') && l in w'.lists
  {
    w.(lists := w.lists + {l})
  }

  function AddCtrl(w: World, c: ControlBox): (w': World)
    ensures SubWorld(w, w') && c in w'.ctrls
  {
    w.(ctrls := w.ctrls + {c})
  }

  lemma ValueInMono(v: Value, w: World, w': World)
    requires ValueIn(v, w) && SubWorld(w, w')
    ensures ValueIn(v, w')
  {
  }

  lemma SeqInMono(s: seq<Value>, w: World, w': World)
    requires SeqIn(s, w) && SubWorld(w, w')
    ensures SeqIn(s, w')
  {
    forall i | 0 <= i < |s| ensures ValueIn(s[i], w') {
      ValueInMono(s[i], w, w');
    }
  }

  lemma MapInMono<K>(m: map<K, Value>, w: World, w': World)
    requires MapIn(m, w) && SubWorld(w, w')
    ensures MapIn(m, w')
  {
    forall k | k in m ensures ValueIn(m[k], w') {
      ValueInMono(m[k], w, w');
    }
  }

  /** `w` with the payloads of the Numbers of `s` added. */
  function AddNums(w: World, s: seq<Value>): (w': World)
    ensures SubWorld(w, w') && w'.lists == w.lists && w'.ctrls == w.ctrls
    ensures forall i :: 0 <= i < |s| && s[i].NumberV? ==> ValueIn(s[i], w')
  {
    w.(nums := w.nums + (set v | v in s && v.NumberV? :: v.num))
  }

  /** A world grown by new lists whose values are in the grown world is
      still closed. */
  lemma HeapClosedGrow(w: World, w': World)
    requires HeapClosed(w) && SubWorld(w, w')
    requires forall l :: l in w'.lists && l !in w.lists ==> SeqIn(l.items, w') && MapIn(l.outside, w')
    ensures HeapClosed(w')
  {
    forall l | l in w'.lists ensures SeqIn(l.items, w') && MapIn(l.outside, w') {
      if l in w.lists {
        SeqInMono(l.items, w, w');
        MapInMono(l.outside, w, w');
      }
    }
  }
}
