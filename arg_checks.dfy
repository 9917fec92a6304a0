/**
 * The argument checks (`checkArgs`) of the value functions: the declarative
 * check of TypeCheckedFunction, the shared check of the numeric, boolean and
 * string families, and the ad-hoc checks of the remaining functions.
 * Resolution (module Registry) tries these in registration order.
 */
module ArgChecks {
  import opened Wrappers
  import opened Values

  /** ParamInfo: a parameter's declared type name and Java class (each
      optional) and whether the argument may be absent. */
  datatype ParamInfo = ParamInfo(name: string, typeName: Option<string>, className: Option<JClass>, nullable: bool)

  /** One argument against its descriptor: an absent argument needs a nullable
      parameter; a present one needs the declared type name, and, when its
      payload is not null, the declared class. */
  predicate ParamAccepts(p: ParamInfo, v: Value?) {
    if v == null then p.nullable
    else
      && (p.typeName.Some? ==> v.typeName == p.typeName)
      && (!v.payload.Null? && p.className.Some? ==> InstanceOf(v.payload, p.className.value))
  }

  /** TypeCheckedFunction.checkArgs, declaratively. */
  predicate TypeCheckAccepts(params: seq<ParamInfo>, args: seq<Value?>) {
    |args| == |params| && forall i :: 0 <= i < |args| ==> ParamAccepts(params[i], args[i])
  }

  /** TypeCheckedFunction.checkArgs as the source runs it: the count, then
      each argument in turn, returning false at the first mismatch. */
  method TypeCheckedCheckArgs(params: seq<ParamInfo>, args: seq<Value?>) returns (ok: bool)
    ensures ok == TypeCheckAccepts(params, args)
  {
    if |args| != |params| {
      return false;
    }
    for i := 0 to |args|
      invariant forall j :: 0 <= j < i ==> ParamAccepts(params[j], args[j])
    {
      var v := args[i];
      var p := params[i];
      if v == null {
        if !p.nullable {
          return false;
        }
      } else {
        if p.typeName.Some? && v.typeName != p.typeName {
          return false;
        }
        if !v.payload.Null? {
          if p.className.Some? && !InstanceOf(v.payload, p.className.value) {
            return false;
          }
        }
      }
    }
    return true;
  }

  /** The four conditions under which a type-checked function accepts. */
  lemma TypeCheckAcceptsIff(params: seq<ParamInfo>, args: seq<Value?>)
    ensures TypeCheckAccepts(params, args) <==>
      && |args| == |params|
      && (forall i :: 0 <= i < |args| && args[i] == null ==> params[i].nullable)
      && (forall i :: 0 <= i < |args| && args[i] != null && params[i].typeName.Some? ==>
            args[i].typeName == params[i].typeName)
      && (forall i :: 0 <= i < |args| && args[i] != null && !args[i].payload.Null? && params[i].className.Some? ==>
            InstanceOf(args[i].payload, params[i].className.value))
  {
  }

  // The parameter descriptors of the type-checked functions.
  const PARAM_INFO_VALUE_FUNCTION := ParamInfo("FUNCTION", Some(TYPE_FUNCTION), Some(ValueFunctionClass), false)
  const PARAM_INFO_LIST := ParamInfo("LIST", None, Some(ListClass), true)
  const PARAM_INFO_FUNCTION := ParamInfo("FUNCTION", Some(TYPE_FUNCTION), Some(FunctionClass), false)
  const PARAM_INFO_TOKEN_REGEX := ParamInfo("TOKEN_REGEX", Some(TYPE_TOKEN_REGEX), Some(TokenSequencePatternClass), false)
  const PARAM_INFO_TOKEN_LIST := ParamInfo("TOKEN_LIST", None, Some(ListClass), true)
  const PARAM_INFO_TOKEN_LIST_REPLACE := ParamInfo("TOKEN_LIST_REPLACEMENT", None, Some(ListClass), true)
  const PARAM_INFO_STRING_REGEX := ParamInfo("REGEX", Some(TYPE_REGEX), None, false)
  const PARAM_INFO_STRING := ParamInfo("STRING", None, Some(StringClass), true)
  const PARAM_INFO_STRING_REPLACE := ParamInfo("STRING_REPLACEMENT", None, Some(StringClass), true)
  const PARAM_INFO_TOKEN := ParamInfo("TOKEN", None, Some(CoreMapClass), false)
  const PARAM_INFO_INCLUDE_MATCHED := ParamInfo("INCLUDE_MATCHED", None, Some(BooleanClass), false)

  const MAP_VALUES_PARAMS := [PARAM_INFO_LIST, PARAM_INFO_VALUE_FUNCTION]
  const MAP_PARAMS := [PARAM_INFO_LIST, PARAM_INFO_FUNCTION]
  const TOKENS_MATCH_PARAMS := [PARAM_INFO_TOKEN_LIST, PARAM_INFO_TOKEN_REGEX]
  const TOKENS_REPLACE_PARAMS := [PARAM_INFO_TOKEN_LIST, PARAM_INFO_TOKEN_REGEX, PARAM_INFO_TOKEN_LIST_REPLACE]
  const STRING_MATCH_PARAMS := [PARAM_INFO_STRING, PARAM_INFO_STRING_REGEX]
  const STRING_REPLACE_PARAMS := [PARAM_INFO_STRING, PARAM_INFO_STRING_REGEX, PARAM_INFO_STRING_REPLACE]
  const TOKEN_STRING_SPLIT_PARAMS := [PARAM_INFO_TOKEN, PARAM_INFO_STRING_REGEX, PARAM_INFO_INCLUDE_MATCHED]

  // ---------------------------------------------------------------------
  // The numeric, boolean and string families share one check: a fixed
  // count when nargs > 0, and every argument admitted by the family.

  /** Numeric family: a present Value holding a Number. */
  predicate NumberArg(v: Value?) {
    v != null && IsNumber(v.payload)
  }

  /** Boolean family: a present Value holding a Boolean. */
  predicate BooleanArg(v: Value?) {
    v != null && v.payload.Bool?
  }

  /** String family: any present Value (the payload is stringified). */
  predicate StringArg(v: Value?) {
    v != null
  }

  predicate FamilyAccepts(nargs: int, args: seq<Value?>, admits: Value? -> bool) {
    (nargs > 0 ==> |args| == nargs) && forall i :: 0 <= i < |args| ==> admits(args[i])
  }

  /** The family check as the source runs it: the count first, then a scan
      that stops at the first argument the family does not admit. */
  method FamilyCheckArgs(nargs: int, args: seq<Value?>, admits: Value? -> bool) returns (ok: bool)
    ensures ok == FamilyAccepts(nargs, args, admits)
  {
    if nargs > 0 && |args| != nargs {
      return false;
    }
    for i := 0 to |args|
      invariant forall j :: 0 <= j < i ==> admits(args[j])
    {
      if !admits(args[i]) {
        return false;
      }
    }
    return true;
  }

  /** What the numeric check rejects: a wrong count, and any argument that is
      absent or does not hold a Number. */
  lemma NumericCheckRejects(nargs: int, args: seq<Value?>, i: int)
    requires nargs > 0
    ensures |args| != nargs ==> !FamilyAccepts(nargs, args, NumberArg)
    ensures 0 <= i < |args| && (args[i] == null || !IsNumber(args[i].payload)) ==> !FamilyAccepts(nargs, args, NumberArg)
  {
  }

  // ---------------------------------------------------------------------
  // Ad-hoc checks.

  /** FORMAT and JOIN: at least one argument, the first a present string. */
  predicate LeadingStringAccepts(args: seq<Value?>) {
    |args| >= 1 && args[0] != null && args[0].payload.Str?
  }

  /** CREATE_REGEX: at least one argument, the first a present list. */
  predicate CreateRegexAccepts(args: seq<Value?>) {
    |args| >= 1 && args[0] != null && args[0].payload.ListRef?
  }

  /** CompareFunction.checkArgs. With a class to check, a present argument
      whose payload is null makes the source's `get().getClass()` throw. */
  function CompareCheck(clazz: Option<JClass>, args: seq<Value?>): (r: Result<bool, Error>)
    ensures |args| != 2 ==> r == Ok(false)
    ensures clazz.None? ==> r == Ok(|args| == 2)
    ensures r == Ok(true) && clazz.Some? ==>
      forall i :: 0 <= i < 2 ==> args[i] != null && InstanceOf(args[i].payload, clazz.value)
    ensures |args| == 2 && clazz.Some? &&
      (forall i :: 0 <= i < 2 ==> args[i] != null && !args[i].payload.Null? && InstanceOf(args[i].payload, clazz.value))
      ==> r == Ok(true)
    ensures |args| == 2 && clazz.Some? && args[0] != null && args[0].payload.Null? ==> r == Err(NullPointer)
    ensures |args| == 2 && clazz.Some? &&
      args[0] != null && !args[0].payload.Null? && InstanceOf(args[0].payload, clazz.value) &&
      args[1] != null && args[1].payload.Null?
      ==> r == Err(NullPointer)
    ensures r.Err? ==> r == Err(NullPointer)
  {
    if |args| != 2 then Ok(false)
    else if clazz.None? then Ok(true)
    else if args[0] == null then Ok(false)
    else if args[0].payload.Null? then Err(NullPointer)
    else if !InstanceOf(args[0].payload, clazz.value) then Ok(false)
    else if args[1] == null then Ok(false)
    else if args[1].payload.Null? then Err(NullPointer)
    else Ok(InstanceOf(args[1].payload, clazz.value))
  }

  /** EQUALS and NOT_EQUALS: exactly two arguments, absent or not. */
  predicate PairAccepts(args: seq<Value?>) {
    |args| == 2
  }

  /** A record or a list of records, as ANNOTATION_VALUE and the record-tag functions accept. */
  predicate RecordsOperand(v: Value?) {
    v != null && (v.payload.RecordRef? || v.payload.ListRef?)
  }

  /** A present Value holding a string. */
  predicate StringValue(v: Value?) {
    v != null && v.payload.Str?
  }

  /** ANNOTATION_VALUE: two or three arguments; a record or list operand; a Class or String key. */
  predicate AnnotationAccepts(args: seq<Value?>) {
    && (|args| == 2 || |args| == 3)
    && RecordsOperand(args[0])
    && args[1] != null && (args[1].payload.KeyRef? || args[1].payload.Str?)
  }

  /** GET_ANNOTATION_TAG: two arguments; an absent or null operand is let through. */
  predicate GetAnnotationTagAccepts(args: seq<Value?>) {
    && |args| == 2
    && (args[0] == null || args[0].payload.Null? || (RecordsOperand(args[0]) && StringValue(args[1])))
  }

  /** SET_ANNOTATION_TAG: two or three arguments; a record or list operand; a string tag. */
  predicate SetAnnotationTagAccepts(args: seq<Value?>) {
    (|args| == 2 || |args| == 3) && RecordsOperand(args[0]) && StringValue(args[1])
  }

  /** REMOVE_ANNOTATION_TAG: two arguments; a record or list operand; a string tag. */
  predicate RemoveAnnotationTagAccepts(args: seq<Value?>) {
    |args| == 2 && RecordsOperand(args[0]) && StringValue(args[1])
  }

  /** TAGS_VALUE: two or three arguments; a Tags operand; a string tag. */
  predicate TagsValueAccepts(args: seq<Value?>) {
    (|args| == 2 || |args| == 3) && args[0] != null && args[0].payload.TagsRef? && StringValue(args[1])
  }

  /** VALUE_TAG: two or three arguments; any present operand; a string tag. */
  predicate SetValueTagAccepts(args: seq<Value?>) {
    (|args| == 2 || |args| == 3) && args[0] != null && StringValue(args[1])
  }

  /** GET_VALUE_TAG and REMOVE_VALUE_TAG: two arguments; any present operand; a string tag. */
  predicate ValueTagAccepts(args: seq<Value?>) {
    |args| == 2 && args[0] != null && StringValue(args[1])
  }

  /** COMPOSITE_VALUE: two or three arguments; an absent or null operand is let through,
      otherwise a CompositeValue and a string field name. */
  predicate CompositeValueAccepts(args: seq<Value?>) {
    && (|args| == 2 || |args| == 3)
    && (args[0] == null || args[0].payload.Null? || (args[0].isComposite && StringValue(args[1])))
  }

  /** COMPOSITE_KEYS: one argument; absent, null, or a CompositeValue. */
  predicate CompositeKeysAccepts(args: seq<Value?>) {
    |args| == 1 && (args[0] == null || args[0].payload.Null? || args[0].isComposite)
  }

  /** OBJECT_FIELD: two or three arguments; an absent or null operand is let through,
      otherwise any object and a string field name. */
  predicate ObjectFieldAccepts(args: seq<Value?>) {
    (|args| == 2 || |args| == 3) && (args[0] == null || args[0].payload.Null? || StringValue(args[1]))
  }

  /** LIST_VALUE: two or three arguments; an absent or null operand is let through,
      otherwise a list and an Integer index. */
  predicate ListValueAccepts(args: seq<Value?>) {
    && (|args| == 2 || |args| == 3)
    && (args[0] == null || args[0].payload.Null? ||
        (args[0].payload.ListRef? && args[1] != null && args[1].payload.Int?))
  }

  /** MAP_VALUE: two or three arguments; an absent or null operand is let through,
      otherwise a map and a non-null key. */
  predicate MapValueAccepts(args: seq<Value?>) {
    && (|args| == 2 || |args| == 3)
    && (args[0] == null || args[0].payload.Null? ||
        (args[0].payload.MapRef? && args[1] != null && !args[1].payload.Null?))
  }

  /** MAP_KEYS: one argument; absent, null, or a map. */
  predicate MapKeysAccepts(args: seq<Value?>) {
    |args| == 1 && (args[0] == null || args[0].payload.Null? || args[0].payload.MapRef?)
  }

  /** AGGREGATE: a ValueFunction and a present initial value, then any number of elements. */
  predicate AggregateAccepts(args: seq<Value?>) {
    |args| >= 2 && args[0] != null && args[0].payload.VFunc? && args[1] != null
  }
}
