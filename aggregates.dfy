/**
 * The functions that apply another function: MAP_VALUES (a ValueFunction
 * over the elements of a list), MAP (a java.util.Function over them) and
 * AGGREGATE (a left fold of a ValueFunction over the remaining arguments).
 *
 * Applying the argument function is a parameter of the model: `apply` gives
 * the Value a ValueFunction (named by its id) returns for an argument with the
 * given type name and payload, `javaApply` the object a Function returns,
 * `combine` the Value a ValueFunction returns for a two-argument call. Each is
 * pure and total here.
 */
module Aggregates {
  import opened Wrappers
  import opened Values
  import opened ArgChecks

  // ---------------------------------------------------------------- MAP_VALUES

  /** The results of one call per element, on `createValue(TYPE_LIST, elem)`, in list order. */
  method ApplyEach(elems: seq<Obj>, fid: nat, apply: (nat, Content) -> Value?) returns (out: seq<Obj>)
    ensures |out| == |elems|
    ensures forall i :: 0 <= i < |elems| ==> out[i] == AsObj(apply(fid, Content(Some(TYPE_LIST), elems[i])))
  {
    out := [];
    for i := 0 to |elems|
      invariant |out| == i
      invariant forall j :: 0 <= j < i ==> out[j] == AsObj(apply(fid, Content(Some(TYPE_LIST), elems[j])))
    {
      out := out + [AsObj(apply(fid, Content(Some(TYPE_LIST), elems[i])))];
    }
  }

  /** MAP_VALUES: a new list of the function's result for each element.
      An absent list gives null; a null list payload fails on `size()`; a null
      function payload fails at the first element, and so gives a new empty
      list when there is none. */
  method MapValues(args: seq<Value?>, apply: (nat, Content) -> Value?) returns (r: Result<Value?, Error>)
    requires TypeCheckAccepts(MAP_VALUES_PARAMS, args)
    ensures args[0] == null ==> r == Ok(null)
    ensures args[0] != null && args[0].payload.Null? ==> r == Err(NullPointer)
    ensures args[0] != null && args[0].payload.ListRef? ==>
      var elems := args[0].payload.list.elems;
      && (args[1].payload.Null? && |elems| > 0 ==> r == Err(NullPointer))
      && (args[1].payload.Null? && |elems| == 0 ==>
            && r.Ok? && r.value != null && fresh(r.value) && r.value.typeName == Some(TYPE_LIST)
            && r.value.payload.ListRef? && fresh(r.value.payload.list) && r.value.payload.list.elems == [])
      && (args[1].payload.VFunc? ==>
            && r.Ok? && r.value != null && fresh(r.value) && r.value.typeName == Some(TYPE_LIST)
            && r.value.payload.ListRef? && fresh(r.value.payload.list)
            && |r.value.payload.list.elems| == |elems|
            && forall i :: 0 <= i < |elems| ==>
                 r.value.payload.list.elems[i] == AsObj(apply(args[1].payload.fid, Content(Some(TYPE_LIST), elems[i]))))
  {
    if args[0] == null {
      return Ok(null);
    }
    if args[0].payload.Null? {
      return Err(NullPointer);
    }
    var elems := args[0].payload.list.elems;
    if args[1].payload.Null? {
      if |elems| > 0 {
        return Err(NullPointer);
      }
      var empty := new JList([]);
      var v := new Value(Some(TYPE_LIST), ListRef(empty));
      return Ok(v);
    }
    var out := ApplyEach(elems, args[1].payload.fid, apply);
    var list := new JList(out);
    var v := new Value(Some(TYPE_LIST), ListRef(list));
    r := Ok(v);
  }

  // ---------------------------------------------------------------- MAP

  /** The results of one call of a java.util.Function per element, in list order. */
  method JavaApplyEach(elems: seq<Obj>, jid: nat, javaApply: (nat, Obj) -> Obj) returns (out: seq<Obj>)
    ensures |out| == |elems|
    ensures forall i :: 0 <= i < |elems| ==> out[i] == javaApply(jid, elems[i])
  {
    out := [];
    for i := 0 to |elems|
      invariant |out| == i
      invariant forall j :: 0 <= j < i ==> out[j] == javaApply(jid, elems[j])
    {
      out := out + [javaApply(jid, elems[i])];
    }
  }

  /** MAP: a new list of the Function's result for each element, in an untyped Value. */
  method MapFn(args: seq<Value?>, javaApply: (nat, Obj) -> Obj) returns (r: Result<Value?, Error>)
    requires TypeCheckAccepts(MAP_PARAMS, args)
    ensures args[0] == null ==> r == Ok(null)
    ensures args[0] != null && args[0].payload.Null? ==> r == Err(NullPointer)
    ensures args[0] != null && args[0].payload.ListRef? ==>
      var elems := args[0].payload.list.elems;
      && (args[1].payload.Null? && |elems| > 0 ==> r == Err(NullPointer))
      && (args[1].payload.Null? && |elems| == 0 ==>
            && r.Ok? && r.value != null && fresh(r.value) && r.value.typeName == None
            && r.value.payload.ListRef? && fresh(r.value.payload.list) && r.value.payload.list.elems == [])
      && (args[1].payload.JFunc? ==>
            && r.Ok? && r.value != null && fresh(r.value) && r.value.typeName == None
            && r.value.payload.ListRef? && fresh(r.value.payload.list)
            && |r.value.payload.list.elems| == |elems|
            && forall i :: 0 <= i < |elems| ==>
                 r.value.payload.list.elems[i] == javaApply(args[1].payload.jid, elems[i]))
  {
    if args[0] == null {
      return Ok(null);
    }
    if args[0].payload.Null? {
      return Err(NullPointer);
    }
    var elems := args[0].payload.list.elems;
    if args[1].payload.Null? {
      if |elems| > 0 {
        return Err(NullPointer);
      }
      var empty := new JList([]);
      var v := new Value(None, ListRef(empty));
      return Ok(v);
    }
    var out := JavaApplyEach(elems, args[1].payload.jid, javaApply);
    var list := new JList(out);
    var v := new Value(None, ListRef(list));
    r := Ok(v);
  }

  // ---------------------------------------------------------------- AGGREGATE

  /** AGGREGATE as written: the argument list for the function is created
      empty (`new ArrayList(2)` only reserves capacity), so the first
      `args.set(0, res)` throws; only a call without elements returns. */
  function AggregateAsWritten(args: seq<Value?>): (r: Result<Value?, Error>)
    requires AggregateAccepts(args)
    ensures |args| == 2 ==> r == Ok(args[1])
    ensures |args| > 2 ==> r == Err(IndexOutOfBounds)
  {
    if |args| == 2 then Ok(args[1]) else Err(IndexOutOfBounds)
  }

  /** The left fold the function evidently intends: `f(...f(f(init, x0), x1)..., xn)`. */
  ghost function FoldLeft(combine: (nat, Value?, Value?) -> Value?, fid: nat, acc: Value?, xs: seq<Value?>): Value?
    decreases |xs|
  {
    if |xs| == 0 then acc else FoldLeft(combine, fid, combine(fid, acc, xs[0]), xs[1..])
  }

  /** Folding one more element applies the function once more to the result so far. */
  lemma {:induction false} FoldLeftSnoc(combine: (nat, Value?, Value?) -> Value?, fid: nat, acc: Value?, xs: seq<Value?>, x: Value?)
    ensures FoldLeft(combine, fid, acc, xs + [x]) == combine(fid, FoldLeft(combine, fid, acc, xs), x)
    decreases |xs|
  {
    if |xs| == 0 {
      assert xs + [x] == [x];
      assert [x][1..] == [];
    } else {
      assert (xs + [x])[1..] == xs[1..] + [x];
      FoldLeftSnoc(combine, fid, combine(fid, acc, xs[0]), xs[1..], x);
    }
  }

  /** Folding a concatenation folds the second part over the result of the first. */
  lemma {:induction false} FoldLeftAppend(combine: (nat, Value?, Value?) -> Value?, fid: nat, acc: Value?, xs: seq<Value?>, ys: seq<Value?>)
    ensures FoldLeft(combine, fid, acc, xs + ys) == FoldLeft(combine, fid, FoldLeft(combine, fid, acc, xs), ys)
    decreases |xs|
  {
    if |xs| == 0 {
      assert xs + ys == ys;
    } else {
      assert (xs + ys)[1..] == xs[1..] + ys;
      FoldLeftAppend(combine, fid, combine(fid, acc, xs[0]), xs[1..], ys);
    }
  }

  /** AGGREGATE corrected: the function applied to the result so far and each
      further argument in turn, starting from the initial value. */
  method Aggregate(args: seq<Value?>, combine: (nat, Value?, Value?) -> Value?) returns (res: Value?)
    requires AggregateAccepts(args)
    ensures res == FoldLeft(combine, args[0].payload.fid, args[1], args[2..])
  {
    var fid := args[0].payload.fid;
    res := args[1];
    var i := 2;
    while i < |args|
      invariant 2 <= i <= |args|
      invariant res == FoldLeft(combine, fid, args[1], args[2..i])
    {
      FoldLeftSnoc(combine, fid, args[1], args[2..i], args[i]);
      assert args[2..i + 1] == args[2..i] + [args[i]];
      res := combine(fid, res, args[i]);
      i := i + 1;
    }
    assert args[2..i] == args[2..];
  }

  /** Without further arguments both forms return the initial value; with any,
      the form as written fails where the fold applies the function. */
  lemma AggregateDiscrepancy(args: seq<Value?>, combine: (nat, Value?, Value?) -> Value?)
    requires AggregateAccepts(args)
    ensures |args| == 2 ==> AggregateAsWritten(args) == Ok(FoldLeft(combine, args[0].payload.fid, args[1], args[2..]))
    ensures |args| == 3 ==>
      && AggregateAsWritten(args) == Err(IndexOutOfBounds)
      && FoldLeft(combine, args[0].payload.fid, args[1], args[2..]) == combine(args[0].payload.fid, args[1], args[2])
  {
    if |args| == 3 {
      assert args[2..][1..] == [];
    }
  }
}
