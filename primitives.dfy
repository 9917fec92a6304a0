/**
 * The primitive function families: integer-path arithmetic (ADD, SUBTRACT,
 * MULTIPLY, DIVIDE, MOD, NEGATE), the boolean functions (AND, OR, NOT), the
 * string functions (CONCAT, UPPERCASE, LOWERCASE, JOIN), CompareFunction and
 * EQUALS / NOT_EQUALS. None of them changes its arguments; each returns the
 * Content of the Value it creates.
 */
module Primitives {
  import opened Wrappers
  import opened JavaInts
  import opened Values
  import opened ArgChecks

  /** The payloads of a list of present Values, in order. */
  function Payloads(args: seq<Value?>): (ps: seq<Obj>)
    requires forall i :: 0 <= i < |args| ==> args[i] != null
    ensures |ps| == |args|
  {
    seq(|args|, i requires 0 <= i < |args| => args[i].payload)
  }

  /** The source's conversion loop: `numbers[i] = in.get(i).get()` (and the
      same loop over Booleans and Strings). */
  method CollectPayloads(args: seq<Value?>) returns (ps: seq<Obj>)
    requires forall i :: 0 <= i < |args| ==> args[i] != null
    ensures ps == Payloads(args)
  {
    ps := [];
    for i := 0 to |args|
      invariant |ps| == i
      invariant forall j :: 0 <= j < i ==> ps[j] == args[j].payload
    {
      ps := ps + [args[i].payload];
    }
  }

  // ---------------------------------------------------------------------
  // Arithmetic (NumericFunction)

  datatype NumOp = AddOp | SubtractOp | MultiplyOp | DivideOp | ModOp | NegateOp

  /** nargs of each numeric function: NEGATE is unary, the others binary. */
  function NumArity(op: NumOp): nat {
    if op == NegateOp then 1 else 2
  }

  /** `compute`: on the integer path (every operand a Long, Integer or Short)
      64-bit long arithmetic; a zero divisor raises ArithmeticException. The
      floating-point path is not modelled. */
  function Compute(op: NumOp, ns: seq<Obj>): (r: Result<Obj, Error>)
    requires |ns| == NumArity(op)
    ensures r.Ok? ==> r.value.Long? && forall i :: 0 <= i < |ns| ==> IsInteger(ns[i])
    ensures r.Err? ==> r.error == Arithmetic || r.error == FloatingPointNotModelled
    ensures r == Err(Arithmetic) <==>
      (op == DivideOp || op == ModOp) && IsInteger(ns[0]) && IsInteger(ns[1]) && LongValue(ns[1]) == 0
  {
    if op == NegateOp then
      if IsInteger(ns[0]) then Ok(Long(NegLong(LongValue(ns[0])))) else Err(FloatingPointNotModelled)
    else if IsInteger(ns[0]) && IsInteger(ns[1]) then
      var a, b := LongValue(ns[0]), LongValue(ns[1]);
      match op
      case AddOp => Ok(Long(AddLong(a, b)))
      case SubtractOp => Ok(Long(SubLong(a, b)))
      case MultiplyOp => Ok(Long(MulLong(a, b)))
      case DivideOp => if b == 0 then Err(Arithmetic) else Ok(Long(DivLong(a, b)))
      case ModOp => if b == 0 then Err(Arithmetic) else Ok(Long(RemLong(a, b)))
    else
      Err(FloatingPointNotModelled)
  }

  /** The integer path of ADD, SUBTRACT, MULTIPLY and NEGATE: the exact result,
      truncated to 64 bits (so exact whenever it fits). */
  lemma IntegerPathWraps(a: Obj, b: Obj)
    requires IsInteger(a) && IsInteger(b)
    ensures var x, y := LongValue(a) as int, LongValue(b) as int;
      && Compute(AddOp, [a, b]).Ok? && (Compute(AddOp, [a, b]).value.l as int - (x + y)) % TWO_64 == 0
      && Compute(SubtractOp, [a, b]).Ok? && (Compute(SubtractOp, [a, b]).value.l as int - (x - y)) % TWO_64 == 0
      && Compute(MultiplyOp, [a, b]).Ok? && (Compute(MultiplyOp, [a, b]).value.l as int - x * y) % TWO_64 == 0
      && Compute(NegateOp, [a]).Ok? && (Compute(NegateOp, [a]).value.l as int + x) % TWO_64 == 0
      && (-TWO_63 <= x + y < TWO_63 ==> Compute(AddOp, [a, b]).value.l as int == x + y)
      && (-TWO_63 <= x - y < TWO_63 ==> Compute(SubtractOp, [a, b]).value.l as int == x - y)
      && (-TWO_63 <= x * y < TWO_63 ==> Compute(MultiplyOp, [a, b]).value.l as int == x * y)
      && (x != -TWO_63 ==> Compute(NegateOp, [a]).value.l as int == -x)
  {
  }

  /** DIVIDE and MOD on the integer path: ArithmeticException for a zero
      divisor, otherwise Java's truncating quotient and remainder. */
  lemma IntegerPathDivides(a: Obj, b: Obj)
    requires IsInteger(a) && IsInteger(b)
    ensures var x, y := LongValue(a) as int, LongValue(b) as int;
      && (y == 0 ==> Compute(DivideOp, [a, b]) == Err(Arithmetic) && Compute(ModOp, [a, b]) == Err(Arithmetic))
      && (y != 0 ==>
            && Compute(ModOp, [a, b]) == Ok(Long(RemLong(LongValue(a), LongValue(b))))
            && x == TruncDiv(x, y) * y + Compute(ModOp, [a, b]).value.l as int
            && (x != -TWO_63 || y != -1 ==> Compute(DivideOp, [a, b]).value.l as int == TruncDiv(x, y))
            && (x == -TWO_63 && y == -1 ==> Compute(DivideOp, [a, b]).value.l as int == -TWO_63))
  {
    var x, y := LongValue(a), LongValue(b);
    if y != 0 && (x as int != -TWO_63 || y != -1) {
      DivLongExact(x, y);
    }
  }

  /** NumericFunction.apply: the payloads of the arguments, computed, in a
      Value of type "Number". */
  method NumericApply(op: NumOp, args: seq<Value?>) returns (r: Result<Content, Error>)
    requires FamilyAccepts(NumArity(op), args, NumberArg)
    ensures Compute(op, Payloads(args)).Ok? ==> r == Ok(Content(Some(TYPE_NUMBER), Compute(op, Payloads(args)).value))
    ensures Compute(op, Payloads(args)).Err? ==> r == Err(Compute(op, Payloads(args)).error)
  {
    var ns := CollectPayloads(args);
    var res :- Compute(op, ns);
    return Ok(Content(Some(TYPE_NUMBER), res));
  }

  // ---------------------------------------------------------------------
  // Boolean functions (BooleanFunction)

  datatype BoolOp = AndOp | OrOp | NotOp

  /** nargs: AND and OR take any number of arguments (-1), NOT exactly one. */
  function BoolArity(op: BoolOp): int {
    if op == NotOp then 1 else -1
  }

  /** AND: returns at the first false. */
  method And(bs: seq<bool>) returns (r: bool)
    ensures r <==> false !in bs
  {
    for i := 0 to |bs|
      invariant false !in bs[..i]
    {
      if !bs[i] {
        return false;
      }
    }
    assert bs[..|bs|] == bs;
    return true;
  }

  /** OR: returns at the first true. */
  method Or(bs: seq<bool>) returns (r: bool)
    ensures r <==> true in bs
  {
    for i := 0 to |bs|
      invariant true !in bs[..i]
    {
      if bs[i] {
        return true;
      }
    }
    assert bs[..|bs|] == bs;
    return false;
  }

  /** What a boolean function promises, for the unboxed arguments. */
  function BoolMeaning(op: BoolOp, bs: seq<bool>): bool
    requires op == NotOp ==> |bs| == 1
  {
    match op
    case AndOp => false !in bs
    case OrOp => true in bs
    case NotOp => !bs[0]
  }

  /** The unboxed Boolean payloads of the arguments. */
  function Bools(args: seq<Value?>): (bs: seq<bool>)
    requires forall i :: 0 <= i < |args| ==> BooleanArg(args[i])
    ensures |bs| == |args|
  {
    seq(|args|, i requires 0 <= i < |args| && BooleanArg(args[i]) => args[i].payload.b)
  }

  /** BooleanFunction.apply: unbox, compute, box as a Boolean Value. */
  method BooleanApply(op: BoolOp, args: seq<Value?>) returns (r: Content)
    requires FamilyAccepts(BoolArity(op), args, BooleanArg)
    ensures r == Content(Some(TYPE_BOOLEAN), Bool(BoolMeaning(op, Bools(args))))
  {
    var bs: seq<bool> := [];
    for i := 0 to |args|
      invariant bs == Bools(args[..i])
    {
      assert args[..i + 1] == args[..i] + [args[i]];
      bs := bs + [args[i].payload.b];
    }
    assert args[..|args|] == args;
    var res: bool;
    match op {
      case AndOp => res := And(bs);
      case OrOp => res := Or(bs);
      case NotOp => res := !bs[0];
    }
    return Content(Some(TYPE_BOOLEAN), Bool(res));
  }

  /** The vacuous cases: AND of nothing is true, OR of nothing is false. */
  lemma BooleanEmpty()
    ensures BoolMeaning(AndOp, []) && !BoolMeaning(OrOp, [])
  {
  }

  // ---------------------------------------------------------------------
  // String functions (StringFunction, JOIN)

  datatype StrOp = ConcatOp | UppercaseOp | LowercaseOp

  /** nargs: CONCAT takes any number of arguments, the case mappings one. */
  function StrArity(op: StrOp): int {
    if op == ConcatOp then -1 else 1
  }

  /** StringFunction.apply's conversion of a payload: a String as it is, any
      other non-null object by its toString() (the parameter `show`), null as null. */
  function Stringify(o: Obj, show: Obj -> string): (r: Option<string>)
    ensures r.None? <==> o.Null?
    ensures o.Str? ==> r == Some(o.str)
  {
    match o
    case Str(s) => Some(s)
    case Null => None
    case _ => Some(show(o))
  }

  /** String.valueOf, which StringUtils.join applies to each element: "null" for null. */
  function Render(s: Option<string>): string {
    if s.Some? then s.value else "null"
  }

  /** StringUtils.join: the elements in order, separated by the glue. */
  function Join(xs: seq<string>, glue: string): string
    decreases |xs|
  {
    if |xs| == 0 then ""
    else if |xs| == 1 then xs[0]
    else xs[0] + glue + Join(xs[1..], glue)
  }

  /** Joining one more element appends the glue and the element. */
  lemma {:induction false} JoinAppend(xs: seq<string>, x: string, glue: string)
    ensures Join(xs + [x], glue) == if xs == [] then x else Join(xs, glue) + glue + x
    decreases |xs|
  {
    if |xs| >= 2 {
      assert (xs + [x])[1..] == xs[1..] + [x];
      JoinAppend(xs[1..], x, glue);
    } else if |xs| == 1 {
      assert xs + [x] == [xs[0], x];
    }
  }

  /** With the empty glue, the joined string is as long as all the pieces together. */
  function TotalLength(xs: seq<string>): nat {
    if xs == [] then 0 else |xs[0]| + TotalLength(xs[1..])
  }

  lemma {:induction false} ConcatLength(xs: seq<string>)
    ensures |Join(xs, "")| == TotalLength(xs)
    decreases |xs|
  {
    if |xs| >= 2 {
      ConcatLength(xs[1..]);
    } else if |xs| == 1 {
      assert xs[1..] == [];
    }
  }

  /** The rendered arguments of CONCAT. */
  function Texts(args: seq<Value?>, show: Obj -> string): (ts: seq<string>)
    requires forall i :: 0 <= i < |args| ==> args[i] != null
    ensures |ts| == |args|
  {
    seq(|args|, i requires 0 <= i < |args| => Render(Stringify(args[i].payload, show)))
  }

  /** StringFunction.apply followed by the function's compute: CONCAT joins
      the rendered strings with no separator; UPPERCASE and LOWERCASE apply
      the case mapping (a parameter) and throw on a null payload. */
  method StringApply(op: StrOp, args: seq<Value?>, show: Obj -> string, upper: string -> string,
                     lower: string -> string) returns (r: Result<Content, Error>)
    requires FamilyAccepts(StrArity(op), args, StringArg)
    ensures op == ConcatOp ==> r == Ok(Content(Some(TYPE_STRING), Str(Join(Texts(args, show), ""))))
    ensures op != ConcatOp && args[0].payload.Null? ==> r == Err(NullPointer)
    ensures op != ConcatOp && !args[0].payload.Null? ==>
      var s := Stringify(args[0].payload, show).value;
      r == Ok(Content(Some(TYPE_STRING), Str(if op == UppercaseOp then upper(s) else lower(s))))
  {
    var strs: seq<Option<string>> := [];
    for i := 0 to |args|
      invariant |strs| == i
      invariant forall j :: 0 <= j < i ==> strs[j] == Stringify(args[j].payload, show)
    {
      strs := strs + [Stringify(args[i].payload, show)];
    }
    match op {
      case ConcatOp =>
        var texts := seq(|strs|, j requires 0 <= j < |strs| => Render(strs[j]));
        assert texts == Texts(args, show);
        return Ok(Content(Some(TYPE_STRING), Str(Join(texts, ""))));
      case UppercaseOp =>
        if strs[0].None? {
          return Err(NullPointer);
        }
        return Ok(Content(Some(TYPE_STRING), Str(upper(strs[0].value))));
      case LowercaseOp =>
        if strs[0].None? {
          return Err(NullPointer);
        }
        return Ok(Content(Some(TYPE_STRING), Str(lower(strs[0].value))));
    }
  }

  /** JOIN: the first argument is the glue; the payloads of the others are
      rendered with String.valueOf and joined. An absent element argument
      makes the source's `in.get(i).get()` throw. */
  method JoinApply(args: seq<Value?>, show: Obj -> string) returns (r: Result<Content, Error>)
    requires LeadingStringAccepts(args)
    ensures r.Err? <==> exists i :: 1 <= i < |args| && args[i] == null
    ensures r.Err? ==> r.error == NullPointer
    ensures r.Ok? ==> r == Ok(Content(Some(TYPE_STRING), Str(Join(Texts(args[1..], show), args[0].payload.str))))
  {
    var glue := args[0].payload.str;
    var texts: seq<string> := [];
    for i := 1 to |args|
      invariant |texts| == i - 1
      invariant forall j :: 1 <= j < i ==> args[j] != null && texts[j - 1] == Render(Stringify(args[j].payload, show))
    {
      if args[i] == null {
        return Err(NullPointer);
      }
      texts := texts + [Render(Stringify(args[i].payload, show))];
    }
    assert texts == Texts(args[1..], show);
    return Ok(Content(Some(TYPE_STRING), Str(Join(texts, glue))));
  }

  // ---------------------------------------------------------------------
  // Comparison (CompareFunction, NumericComparator)

  datatype CompareType = GT | LT | GE | LE | EQ | NE

  /** CompareFunction.compare: the comparison type read off the comparator's sign. */
  function CompareSign(ct: CompareType, res: int): bool {
    match ct
    case GT => res > 0
    case LT => res < 0
    case GE => res >= 0
    case LE => res <= 0
    case EQ => res == 0
    case NE => res != 0
  }

  /** EQ and NE are complements, GE is GT or EQ, LE is LT or EQ, and each
      strict comparison is the complement of the other non-strict one. */
  lemma CompareTypesRelate(res: int)
    ensures CompareSign(EQ, res) == !CompareSign(NE, res)
    ensures CompareSign(GE, res) == (CompareSign(GT, res) || CompareSign(EQ, res))
    ensures CompareSign(LE, res) == (CompareSign(LT, res) || CompareSign(EQ, res))
    ensures CompareSign(GT, res) == !CompareSign(LE, res)
    ensures CompareSign(LT, res) == !CompareSign(GE, res)
  {
  }

  /** NUMBER_COMPARATOR: as longs when both operands are integers (the
      floating-point path, Double.compare, is not modelled); the cast to
      Number fails on anything else. */
  function NumericComparator(a: Obj, b: Obj): (r: Result<int, Error>)
    ensures IsInteger(a) && IsInteger(b) ==> r == Ok(CompareLong(LongValue(a), LongValue(b)))
    ensures !IsNumber(a) || !IsNumber(b) ==> r == Err(ClassCast)
  {
    if !IsNumber(a) || !IsNumber(b) then Err(ClassCast)
    else if IsInteger(a) && IsInteger(b) then Ok(CompareLong(LongValue(a), LongValue(b)))
    else Err(FloatingPointNotModelled)
  }

  /** The numeric comparisons order integers as their long values do. */
  lemma NumericCompareOrders(ct: CompareType, a: Obj, b: Obj)
    requires IsInteger(a) && IsInteger(b)
    ensures var x, y := LongValue(a), LongValue(b);
      NumericComparator(a, b).Ok? &&
      CompareSign(ct, NumericComparator(a, b).value) == match ct
        case GT => x > y
        case LT => x < y
        case GE => x >= y
        case LE => x <= y
        case EQ => x == y
        case NE => x != y
  {
  }

  /** CompareFunction.apply: null (no Value) when an operand is absent or
      holds null; otherwise TRUE or FALSE as the comparator's sign says. */
  function CompareApply(ct: CompareType, cmp: (Obj, Obj) -> Result<int, Error>, clazz: Option<JClass>,
                        args: seq<Value?>): (r: Result<Option<bool>, Error>)
    requires CompareCheck(clazz, args) == Ok(true)
    ensures r == Ok(None) <==>
      args[0] == null || args[1] == null || args[0].payload.Null? || args[1].payload.Null?
    ensures args[0] != null && args[1] != null && !args[0].payload.Null? && !args[1].payload.Null? ==>
      var c := cmp(args[0].payload, args[1].payload);
      r == if c.Ok? then Ok(Some(CompareSign(ct, c.value))) else Err(c.error)
  {
    if args[0] == null || args[1] == null || args[0].payload.Null? || args[1].payload.Null? then Ok(None)
    else
      var c :- cmp(args[0].payload, args[1].payload);
      Ok(Some(CompareSign(ct, c)))
  }

  /** Swapping the operands of a numeric comparison swaps GT with LT and GE with LE. */
  lemma NumericCompareSwaps(a: Obj, b: Obj)
    requires IsInteger(a) && IsInteger(b)
    ensures CompareSign(GT, NumericComparator(a, b).value) == CompareSign(LT, NumericComparator(b, a).value)
    ensures CompareSign(GE, NumericComparator(a, b).value) == CompareSign(LE, NumericComparator(b, a).value)
    ensures CompareSign(EQ, NumericComparator(a, b).value) == CompareSign(EQ, NumericComparator(b, a).value)
  {
  }

  // ---------------------------------------------------------------------
  // EQUALS and NOT_EQUALS; `eq` is the payload's own equals().

  /** EQUALS: presence-equality when an operand is absent, then
      reference-equality when a payload is null, otherwise equals(). */
  function EqualsApply(eq: (Obj, Obj) -> bool, args: seq<Value?>): (r: bool)
    requires PairAccepts(args)
    ensures args[0] == null || args[1] == null ==> (r <==> args[0] == args[1])
    ensures args[0] != null && args[1] != null && (args[0].payload.Null? || args[1].payload.Null?) ==>
      (r <==> args[0].payload.Null? && args[1].payload.Null?)
    ensures args[0] != null && args[1] != null && !args[0].payload.Null? && !args[1].payload.Null? ==>
      r == eq(args[0].payload, args[1].payload)
  {
    if args[0] == null || args[1] == null then args[0] == args[1]
    else if args[0].payload.Null? || args[1].payload.Null? then args[0].payload == args[1].payload
    else eq(args[0].payload, args[1].payload)
  }

  /** NOT_EQUALS: the same three cases, with TRUE and FALSE exchanged. */
  function NotEqualsApply(eq: (Obj, Obj) -> bool, args: seq<Value?>): (r: bool)
    requires PairAccepts(args)
    ensures r == !EqualsApply(eq, args)
  {
    var res :=
      if args[0] == null || args[1] == null then args[0] == args[1]
      else if args[0].payload.Null? || args[1].payload.Null? then args[0].payload == args[1].payload
      else eq(args[0].payload, args[1].payload);
    if res then false else true
  }

  /** EQUALS is reflexive and symmetric whenever the payloads' equals() is. */
  lemma EqualsReflexiveSymmetric(eq: (Obj, Obj) -> bool, v: Value?, w: Value?)
    requires forall o :: eq(o, o)
    requires forall o, p :: eq(o, p) == eq(p, o)
    ensures EqualsApply(eq, [v, v])
    ensures EqualsApply(eq, [v, w]) == EqualsApply(eq, [w, v])
  {
  }
}
