/** What the evaluators do to a List's backing array: indexed reads and
    writes, range materialisation and `splice`-based pop
    (src/runtime/evaluator.ts, src/runtime/interpreter.ts). A backing array is
    seen as a `Store`: its elements, and the properties a JavaScript array
    keeps under negative keys. */
module ListOps {
  import opened Utils
  import opened Values

  datatype Store = Store(items: seq<Value>, outside: map<int, Value>)

  function StoreOf(l: ListBox): Store
    reads l
  {
    Store(l.items, l.outside)
  }

  /** `arr[k]`: the element at `k`, what was stored under a negative key, or
      `undefined` (past the end, or a negative key never written). */
  function ReadAt(s: Store, k: int): Value {
    if 0 <= k < |s.items| then s.items[k]
    else if k < 0 && k in s.outside then s.outside[k]
    else Undefined
  }

  function Holes(n: nat): (r: seq<Value>)
    ensures |r| == n
    ensures forall i :: 0 <= i < n ==> r[i] == Undefined
  {
    if n == 0 then [] else Holes(n - 1) + [Undefined]
  }

  /** `arr[k] = v`. Writing past the end lengthens the array, leaving holes
      that read as `undefined`; a negative key is a property, not an element. */
  function WriteAt(s: Store, k: int, v: Value): (r: Store)
    ensures ReadAt(r, k) == v
    ensures forall j :: j != k ==> ReadAt(r, j) == ReadAt(s, j)
    ensures k >= 0 ==> |r.items| == Max(|s.items|, k + 1) && r.outside == s.outside
    ensures k < 0 ==> r.items == s.items
  {
    if k < 0 then Store(s.items, s.outside[k := v])
    else if k < |s.items| then Store(s.items[k := v], s.outside)
    else Store(s.items + Holes(k - |s.items|) + [v], s.outside)
  }

  /** A negative index counts from the end. */
  function Wrap(k: int, len: nat): int {
    if k < 0 then k + len else k
  }

  // ---------------------------------------------------------------------
  // Index operands

  /** Checks that every index value is a Number (`indexValue.every(...)`) and
      takes their payloads. The first offender decides the failure: probing
      `undefined` is a host error, any other tag a TypeError. */
  function NumberIndices(vs: seq<Value>): (r: Result<seq<int>>)
    reads set v | v in vs && v.NumberV? :: v.num
    ensures r.Ok? <==> forall i :: 0 <= i < |vs| ==> vs[i].NumberV?
    ensures r.Ok? ==> |r.value| == |vs| && forall i :: 0 <= i < |vs| ==> r.value[i] == vs[i].num.value
    ensures r.Err? ==> exists i :: 0 <= i < |vs| && !vs[i].NumberV? &&
                         (forall j :: 0 <= j < i ==> vs[j].NumberV?) &&
                         r.error == (if vs[i].Undefined? then HostTypeError else TypeError)
  {
    if vs == [] then Ok([])
    else if vs[0].Undefined? then Err(HostTypeError)
    else if !vs[0].NumberV? then Err(TypeError)
    else
      match NumberIndices(vs[1..])
      case Err(e) =>
        assert forall i :: 1 <= i < |vs| ==> vs[1..][i - 1] == vs[i];
        Err(e)
      case Ok(rest) => Ok([vs[0].num.value] + rest)
  }

  // ---------------------------------------------------------------------
  // Reading

  /** The elements `evalIndexExpr` collects: each index wrapped once by the
      length, then read; an index still above the length is a RangeError,
      while an index equal to the length reads `undefined`. */
  function ReadEach(s: Store, idx: seq<int>): (r: Result<seq<Value>>)
    ensures r.Ok? <==> forall i :: 0 <= i < |idx| ==> Wrap(idx[i], |s.items|) <= |s.items|
    ensures r.Ok? ==> |r.value| == |idx| &&
                      forall i :: 0 <= i < |idx| ==> r.value[i] == ReadAt(s, Wrap(idx[i], |s.items|))
    ensures r.Err? ==> r.error == RangeError
  {
    if idx == [] then Ok([])
    else if Wrap(idx[0], |s.items|) > |s.items| then Err(RangeError)
    else
      match ReadEach(s, idx[1..])
      case Err(e) => Err(e)
      case Ok(rest) => Ok([ReadAt(s, Wrap(idx[0], |s.items|))] + rest)
  }

  /** The fancy read `l[i]` / `l[[i, j, ...]]` of evaluator.ts: several
      indices give a new List of the elements, one gives the element itself,
      none gives `undefined`. */
  method IndexRead(l: ListBox, idx: seq<int>) returns (r: Result<Value>)
    ensures ReadEach(StoreOf(l), idx).Err? ==> r == Err(RangeError)
    ensures ReadEach(StoreOf(l), idx).Ok? ==> r.Ok?
    ensures r.Ok? && |idx| == 0 ==> r.value == Undefined
    ensures r.Ok? && |idx| == 1 ==> r.value == ReadEach(StoreOf(l), idx).value[0]
    ensures r.Ok? && |idx| > 1 ==>
              r.value.ListV? && fresh(r.value.list) &&
              r.value.list.items == ReadEach(StoreOf(l), idx).value && r.value.list.outside == map[]
  {
    var out: seq<Value> := [];
    var i := 0;
    while i < |idx|
      invariant 0 <= i <= |idx|
      invariant ReadEach(StoreOf(l), idx[..i]).Ok?
      invariant out == ReadEach(StoreOf(l), idx[..i]).value
    {
      var k := Wrap(idx[i], |l.items|);
      if k > |l.items| {
        ReadEachPrefix(StoreOf(l), idx, i + 1);
        return Err(RangeError);
      }
      out := out + [ReadAt(StoreOf(l), k)];
      ReadEachSnoc(StoreOf(l), idx, i);
      i := i + 1;
    }
    assert idx[..i] == idx;
    if |out| > 1 {
      var box := new ListBox(out);
      r := Ok(ListV(box));
    } else if |out| == 1 {
      r := Ok(out[0]);
    } else {
      r := Ok(Undefined);
    }
  }

  lemma ReadEachPrefix(s: Store, idx: seq<int>, n: nat)
    requires n <= |idx| && ReadEach(s, idx[..n]).Err?
    ensures ReadEach(s, idx).Err?
  {
    var i :| 0 <= i < n && Wrap(idx[..n][i], |s.items|) > |s.items|;
    assert idx[..n][i] == idx[i];
  }

  lemma ReadEachSnoc(s: Store, idx: seq<int>, i: nat)
    requires i < |idx| && ReadEach(s, idx[..i]).Ok? && Wrap(idx[i], |s.items|) <= |s.items|
    ensures ReadEach(s, idx[..i + 1]).Ok?
    ensures ReadEach(s, idx[..i + 1]).value == ReadEach(s, idx[..i]).value + [ReadAt(s, Wrap(idx[i], |s.items|))]
  {
    var a, b := ReadEach(s, idx[..i]).value, ReadEach(s, idx[..i + 1]).value;
    assert forall j :: 0 <= j < i ==> idx[..i + 1][j] == idx[..i][j];
    assert b == a + [ReadAt(s, Wrap(idx[i], |s.items|))];
  }

  /** The single read `l[i]` of interpreter.ts: the index wrapped once, a
      RangeError above the length, `undefined` at the length. */
  function ReadOne(s: Store, k: int): (r: Result<Value>)
    ensures r.Err? <==> Wrap(k, |s.items|) > |s.items|
    ensures r.Err? ==> r.error == RangeError
    ensures r.Ok? ==> ReadEach(s, [k]) == Ok([r.value]) && r.value == ReadAt(s, Wrap(k, |s.items|))
    ensures 0 <= k < |s.items| ==> r == Ok(s.items[k])
    ensures -|s.items| <= k < 0 ==> r == Ok(s.items[k + |s.items|])
  {
    var w := Wrap(k, |s.items|);
    assert [k][1..] == [] && ReadEach(s, []) == Ok([]);
    assert [ReadAt(s, w)] + [] == [ReadAt(s, w)];
    if w > |s.items| then Err(RangeError) else Ok(ReadAt(s, w))
  }

  // ---------------------------------------------------------------------
  // Writing

  /** The position a multi-index write (and every interpreter.ts write)
      stores to: wrapped once, then clamped into `[0, len]`. */
  function ClampIndex(k: int, len: nat): (r: nat)
    ensures r <= len
    ensures 0 <= k <= len ==> r == k
    ensures k < 0 <= k + len ==> r == k + len
    ensures k + len < 0 ==> r == 0
    ensures k > len ==> r == len
  {
    Clamp(Wrap(k, len), 0, len)
  }

  /** The positions of a multi-index write, one per index, in order. */
  function ClampAll(ks: seq<int>, len: nat): seq<int> {
    seq(|ks|, i requires 0 <= i < |ks| => ClampIndex(ks[i], len))
  }

  /** The writes `indexable.value[pos[i]] = value.value[i]` for `i` from `from`
      on. When the right-hand List is the indexed one itself (`aliased`), each
      item is read from the array as the earlier writes left it. */
  function WriteAll(s: Store, pos: seq<int>, src: seq<Value>, aliased: bool, from: nat): (r: Store)
    requires from <= |pos|
    decreases |pos| - from
  {
    if from == |pos| then s
    else
      var v := if aliased then ReadAt(s, from) else if from < |src| then src[from] else Undefined;
      WriteAll(WriteAt(s, pos[from], v), pos, src, aliased, from + 1)
  }

  /** Without aliasing and with distinct positions, a multi-index write puts
      item `i` at position `i` and leaves every other key as it was. */
  lemma {:induction false} WriteAllDistinct(s: Store, pos: seq<int>, src: seq<Value>, from: nat)
    requires from <= |pos| <= |src|
    requires forall i, j :: 0 <= i < j < |pos| ==> pos[i] != pos[j]
    ensures forall i :: from <= i < |pos| ==> ReadAt(WriteAll(s, pos, src, false, from), pos[i]) == src[i]
    ensures forall k :: (forall i :: from <= i < |pos| ==> pos[i] != k) ==>
              ReadAt(WriteAll(s, pos, src, false, from), k) == ReadAt(s, k)
    decreases |pos| - from
  {
    if from < |pos| {
      var s' := WriteAt(s, pos[from], src[from]);
      WriteAllDistinct(s', pos, src, from + 1);
    }
  }

  /** The multi-index write of evaluator.ts once the positions are known
      (`pos`, already clamped): the right-hand side must be a List with as
      many items as there are positions, checked before any write. */
  method WriteMany(l: ListBox, pos: seq<int>, src: ListBox) returns (r: Outcome)
    modifies l
    ensures |old(src.items)| != |pos| ==> r == Fail(RuntimeError) && l.items == old(l.items) && l.outside == old(l.outside)
    ensures |old(src.items)| == |pos| ==>
              r == Pass && StoreOf(l) == WriteAll(old(StoreOf(l)), pos, old(src.items), src == l, 0)
  {
    if |src.items| != |pos| {
      return Fail(RuntimeError);
    }
    ghost var s0 := StoreOf(l);
    ghost var items0 := src.items;
    var i := 0;
    while i < |pos|
      invariant 0 <= i <= |pos|
      invariant src != l ==> src.items == items0
      invariant WriteAll(StoreOf(l), pos, items0, src == l, i) == WriteAll(s0, pos, items0, src == l, 0)
    {
      var v := if i < |src.items| then src.items[i] else Undefined;
      if src == l {
        v := ReadAt(StoreOf(l), i);
      }
      var s := WriteAt(StoreOf(l), pos[i], v);
      l.items, l.outside := s.items, s.outside;
      i := i + 1;
    }
    r := Pass;
  }

  /** The single write `indexable.value[k] = value` of evaluator.ts: the
      index is used as it is, neither wrapped nor clamped. */
  method WriteOne(l: ListBox, k: int, v: Value)
    modifies l
    ensures StoreOf(l) == WriteAt(old(StoreOf(l)), k, v)
    ensures ReadAt(StoreOf(l), k) == v
    ensures forall j :: j != k ==> ReadAt(StoreOf(l), j) == ReadAt(old(StoreOf(l)), j)
  {
    var s := WriteAt(StoreOf(l), k, v);
    l.items, l.outside := s.items, s.outside;
  }

  // ---------------------------------------------------------------------
  // Range

  /** `start, start + step, ...` while below `end` (at most `end` when
      inclusive); defined for a positive step. */
  function RangeSpec(start: int, end: int, step: int, inclusive: bool): (r: seq<int>)
    requires step > 0
    decreases if inclusive then end - start + 1 else end - start
  {
    if (if inclusive then start <= end else start < end) then [start] + RangeSpec(start + step, end, step, inclusive)
    else []
  }

  /** Every element of a range is `start` plus a multiple of `step`, lies
      inside the bounds, and the elements ascend by exactly `step`. */
  lemma {:induction false} RangeSpecShape(start: int, end: int, step: int, inclusive: bool)
    requires step > 0
    ensures var r := RangeSpec(start, end, step, inclusive);
            (forall i :: 0 <= i < |r| ==> r[i] == start + i * step) &&
            (forall i :: 0 <= i < |r| ==> start <= r[i] && (if inclusive then r[i] <= end else r[i] < end)) &&
            (r == [] <==> (if inclusive then start > end else start >= end)) &&
            (r != [] ==> (var next := r[|r| - 1] + step; if inclusive then next > end else next >= end))
    decreases if inclusive then end - start + 1 else end - start
  {
    var r := RangeSpec(start, end, step, inclusive);
    if (if inclusive then start <= end else start < end) {
      RangeSpecShape(start + step, end, step, inclusive);
      var t := RangeSpec(start + step, end, step, inclusive);
      assert r == [start] + t;
      forall i | 1 <= i < |r|
        ensures r[i] == start + i * step
      {
        assert r[i] == t[i - 1] == start + step + (i - 1) * step;
      }
    }
  }

  /** `evalRangeExpr` once its three operands are Numbers: a new List of new
      Numbers. With a step that is not positive and a guard that holds at the
      start, the source loops forever; the model reports that as Diverges. */
  method RangeValues(start: int, end: int, step: int, inclusive: bool) returns (r: Result<Value>)
    ensures step <= 0 && (if inclusive then start <= end else start < end) ==> r == Err(Diverges)
    ensures step <= 0 && !(if inclusive then start <= end else start < end) ==>
              r.Ok? && r.value.ListV? && fresh(r.value.list) && r.value.list.items == [] && r.value.list.outside == map[]
    ensures step > 0 ==>
              r.Ok? && r.value.ListV? && fresh(r.value.list) && r.value.list.outside == map[] &&
              |r.value.list.items| == |RangeSpec(start, end, step, inclusive)| &&
              forall i :: 0 <= i < |r.value.list.items| ==>
                r.value.list.items[i].NumberV? && fresh(r.value.list.items[i].num) &&
                r.value.list.items[i].num.value == RangeSpec(start, end, step, inclusive)[i]
  {
    if step <= 0 && (if inclusive then start <= end else start < end) {
      r := Err(Diverges);
    } else {
      var out := RangeItems(start, end, step, inclusive);
      var list := new ListBox(out);
      r := Ok(ListV(list));
    }
  }

  /** The loop of `RangeValues`: a new Number per element of the range. */
  method RangeItems(start: int, end: int, step: int, inclusive: bool) returns (out: seq<Value>)
    requires step > 0 || !(if inclusive then start <= end else start < end)
    ensures step <= 0 ==> out == []
    ensures step > 0 ==>
              |out| == |RangeSpec(start, end, step, inclusive)| &&
              forall i :: 0 <= i < |out| ==>
                out[i].NumberV? && fresh(out[i].num) && out[i].num.value == RangeSpec(start, end, step, inclusive)[i]
  {
    out := [];
    ghost var done: seq<int> := [];
    var v := start;
    while if inclusive then v <= end else v < end
      invariant step > 0 || out == []
      invariant step > 0 ==> done + RangeSpec(v, end, step, inclusive) == RangeSpec(start, end, step, inclusive)
      invariant |out| == |done|
      invariant forall i :: 0 <= i < |out| ==> out[i].NumberV? && fresh(out[i].num) && out[i].num.value == done[i]
      decreases if inclusive then end - v + 1 else end - v
    {
      var box := new NumberBox(v);
      out := out + [NumberV(box)];
      done := done + [v];
      v := v + step;
    }
  }

  // ---------------------------------------------------------------------
  // Pop

  /** Where `splice(k, 1)` starts on an array of length `len`. */
  function SpliceStart(k: int, len: nat): (r: nat)
    ensures r <= len
    ensures 0 <= k <= len ==> r == k
    ensures k < 0 <= k + len ==> r == len + k
  {
    if k < 0 then Max(len + k, 0) else Min(k, len)
  }

  /** `items.splice(k, 1)`: the array without the element at the start
      position, and the (at most one) element removed. */
  function SpliceOne(items: seq<Value>, k: int): (r: (seq<Value>, seq<Value>))
    ensures |r.1| <= 1 && |r.0| + |r.1| == |items|
    ensures multiset(r.0) + multiset(r.1) == multiset(items)
    ensures SpliceStart(k, |items|) < |items| ==> r.1 == [items[SpliceStart(k, |items|)]]
  {
    var p := SpliceStart(k, |items|);
    if p < |items| then
      assert items == items[..p] + [items[p]] + items[p + 1..];
      (items[..p] + items[p + 1..], [items[p]])
    else (items, [])
  }

  /** The removals of `evalPopExpr`, one index after the other on the
      shrinking array: what remains and what was removed, in order. */
  function PopAll(items: seq<Value>, idx: seq<int>): (r: (seq<Value>, seq<Value>))
  {
    if idx == [] then (items, [])
    else
      var (rest, removed) := SpliceOne(items, idx[0]);
      var (rest', removed') := PopAll(rest, idx[1..]);
      (rest', removed + removed')
  }

  /** Pop loses and duplicates nothing: what remains and what was removed
      together are the original elements; at most one element goes per
      index. */
  lemma {:induction false} PopAllConserves(items: seq<Value>, idx: seq<int>)
    ensures multiset(PopAll(items, idx).0) + multiset(PopAll(items, idx).1) == multiset(items)
    ensures |PopAll(items, idx).1| <= |idx|
    ensures |PopAll(items, idx).0| + |PopAll(items, idx).1| == |items|
  {
    if idx != [] {
      var (rest, removed) := SpliceOne(items, idx[0]);
      PopAllConserves(rest, idx[1..]);
    }
  }

  /** No index of a pop lies above the length `n` (`v.value <= length`). */
  predicate WithinLength(idx: seq<int>, n: int) {
    forall i :: 0 <= i < |idx| ==> idx[i] <= n
  }

  /** `out.length > 1 ? new ListVal(out) : out[0]`: the answer `v` of a pop
      that removed `removed`. */
  predicate Bundled(removed: seq<Value>, v: Value)
    reads if v.ListV? then {v.list} else {}
  {
    && (|removed| == 0 ==> v == Undefined)
    && (|removed| == 1 ==> v == removed[0])
    && (|removed| > 1 ==> v.ListV? && v.list.items == removed && v.list.outside == map[])
  }

  /** `evalPopExpr` on a List once its indices are known: any index above the
      length fails before anything is removed; otherwise the indices are
      spliced out in turn, and one removed item comes back bare, several as a
      new List, none as `undefined`. */
  method Pop(l: ListBox, idx: seq<int>) returns (r: Result<Value>)
    modifies l
    ensures (exists i :: 0 <= i < |idx| && idx[i] > |old(l.items)|) ==>
              r == Err(RangeError) && l.items == old(l.items)
    ensures (forall i :: 0 <= i < |idx| ==> idx[i] <= |old(l.items)|) ==>
              r.Ok? && l.items == PopAll(old(l.items), idx).0 &&
              (var removed := PopAll(old(l.items), idx).1;
               (|removed| == 0 ==> r.value == Undefined) &&
               (|removed| == 1 ==> r.value == removed[0]) &&
               (|removed| > 1 ==>
                  r.value.ListV? && fresh(r.value.list) && r.value.list.items == removed && r.value.list.outside == map[]))
    ensures l.outside == old(l.outside)
  {
    if forall i :: 0 <= i < |idx| ==> idx[i] <= |l.items| {
      var out := SpliceAll(l, idx);
      r := Bundle(out);
    } else {
      r := Err(RangeError);
    }
  }

  /** The splices of `Pop`, one index after the other; `out` collects what
      they remove. */
  method SpliceAll(l: ListBox, idx: seq<int>) returns (out: seq<Value>)
    modifies l
    ensures l.items == PopAll(old(l.items), idx).0 && out == PopAll(old(l.items), idx).1
    ensures l.outside == old(l.outside)
  {
    ghost var items0 := l.items;
    out := [];
    assert idx[0..] == idx;
    assert out + PopAll(l.items, idx[0..]).1 == PopAll(items0, idx).1;
    var i := 0;
    while i < |idx|
      invariant 0 <= i <= |idx|
      invariant l.outside == old(l.outside)
      invariant PopAll(l.items, idx[i..]).0 == PopAll(items0, idx).0
      invariant out + PopAll(l.items, idx[i..]).1 == PopAll(items0, idx).1
    {
      var (rest, removed) := SpliceOne(l.items, idx[i]);
      assert idx[i..][1..] == idx[i + 1..];
      ghost var tail := PopAll(rest, idx[i + 1..]);
      assert PopAll(l.items, idx[i..]) == (tail.0, removed + tail.1);
      assert out + (removed + tail.1) == (out + removed) + tail.1;
      l.items := rest;
      out := out + removed;
      i := i + 1;
    }
    assert idx[i..] == [];
    assert out + [] == out;
  }

  /** `out.length > 1 ? new ListVal(out) : out[0]`. */
  method Bundle(out: seq<Value>) returns (r: Result<Value>)
    ensures r.Ok?
    ensures |out| == 0 ==> r.value == Undefined
    ensures |out| == 1 ==> r.value == out[0]
    ensures |out| > 1 ==> r.value.ListV? && fresh(r.value.list) && r.value.list.items == out && r.value.list.outside == map[]
  {
    if |out| > 1 {
      var box := new ListBox(out);
      r := Ok(ListV(box));
    } else if |out| == 1 {
      r := Ok(out[0]);
    } else {
      r := Ok(Undefined);
    }
  }

  // ---------------------------------------------------------------------
  // Payloads stay within a world

  /** Every value a backing array holds has its payload in `w`. */
  predicate StoreIn(s: Store, w: World) {
    SeqIn(s.items, w) && MapIn(s.outside, w)
  }

  lemma ReadAtIn(s: Store, k: int, w: World)
    requires StoreIn(s, w)
    ensures ValueIn(ReadAt(s, k), w)
  {
  }

  lemma WriteAtIn(s: Store, k: int, v: Value, w: World)
    requires StoreIn(s, w) && ValueIn(v, w)
    ensures StoreIn(WriteAt(s, k, v), w)
  {
    var r := WriteAt(s, k, v);
    forall i | 0 <= i < |r.items| ensures ValueIn(r.items[i], w) {
      assert r.items[i] == ReadAt(r, i);
      if i != k {
        ReadAtIn(s, i, w);
      }
    }
  }

  lemma {:induction false} WriteAllIn(s: Store, pos: seq<int>, src: seq<Value>, aliased: bool, from: nat, w: World)
    requires from <= |pos| && StoreIn(s, w) && SeqIn(src, w)
    ensures StoreIn(WriteAll(s, pos, src, aliased, from), w)
    decreases |pos| - from
  {
    if from < |pos| {
      var v := if aliased then ReadAt(s, from) else if from < |src| then src[from] else Undefined;
      ReadAtIn(s, from, w);
      WriteAtIn(s, pos[from], v, w);
      WriteAllIn(WriteAt(s, pos[from], v), pos, src, aliased, from + 1, w);
    }
  }

  lemma ReadEachIn(s: Store, idx: seq<int>, w: World)
    requires StoreIn(s, w) && ReadEach(s, idx).Ok?
    ensures SeqIn(ReadEach(s, idx).value, w)
  {
    forall i | 0 <= i < |idx| ensures ValueIn(ReadEach(s, idx).value[i], w) {
      ReadAtIn(s, Wrap(idx[i], |s.items|), w);
    }
  }

  lemma PopAllIn(items: seq<Value>, idx: seq<int>, w: World)
    requires SeqIn(items, w)
    ensures SeqIn(PopAll(items, idx).0, w) && SeqIn(PopAll(items, idx).1, w)
  {
    PopAllConserves(items, idx);
    var (rest, removed) := PopAll(items, idx);
    forall i | 0 <= i < |rest| ensures ValueIn(rest[i], w) {
      assert rest[i] in multiset(rest);
      assert rest[i] in multiset(items);
    }
    forall i | 0 <= i < |removed| ensures ValueIn(removed[i], w) {
      assert removed[i] in multiset(removed);
      assert removed[i] in multiset(items);
    }
  }
}
