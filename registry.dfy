/**
 * The function registry: the built-in functions registered under each name,
 * the lookup of a name (where a binding in the environment shadows the
 * registry), and overload resolution.
 *
 * Resolution is done by the expression evaluator, which is not part of this
 * model: it is written here as an explicit helper that tries the candidates
 * in registration order and takes the first whose `checkArgs` accepts.
 */
module Registry {
  import opened Wrappers
  import opened Values
  import opened ArgChecks
  import opened Primitives

  /** The built-in ValueFunction objects. */
  datatype Builtin =
    | Numeric(op: NumOp)
    | Boolean(bop: BoolOp)
    | Format
    | StringFn(sop: StrOp)
    | JoinFn
    | CreateRegex
    | MapValuesFn
    | MapFn
    | TokensMatch
    | TokensReplace
    | StringMatch
    | StringReplace
    | TokenStringSplit
    | Compare(ct: CompareType)      // a CompareFunction over NUMBER_COMPARATOR and Number.class
    | EqualsFn
    | NotEqualsFn
    | AnnotationFn
    | GetAnnotationTagFn
    | SetAnnotationTagFn
    | RemoveAnnotationTagFn
    | TagsValueFn
    | SetValueTagFn
    | GetValueTagFn
    | RemoveValueTagFn
    | CompositeValueFn
    | CompositeKeysFn
    | ObjectField
    | ListValueFn
    | MapValueFn
    | MapKeysFn
    | AggregateFn

  /** Each built-in's `checkArgs`. Only a CompareFunction's check can throw. */
  function CheckArgs(b: Builtin, args: seq<Value?>): (r: Result<bool, Error>)
    ensures r.Err? ==> b.Compare? && r.error == NullPointer
  {
    match b
    case Numeric(op) => Ok(FamilyAccepts(NumArity(op), args, NumberArg))
    case Boolean(op) => Ok(FamilyAccepts(BoolArity(op), args, BooleanArg))
    case Format => Ok(LeadingStringAccepts(args))
    case StringFn(op) => Ok(FamilyAccepts(StrArity(op), args, StringArg))
    case JoinFn => Ok(LeadingStringAccepts(args))
    case CreateRegex => Ok(CreateRegexAccepts(args))
    case MapValuesFn => Ok(TypeCheckAccepts(MAP_VALUES_PARAMS, args))
    case MapFn => Ok(TypeCheckAccepts(MAP_PARAMS, args))
    case TokensMatch => Ok(TypeCheckAccepts(TOKENS_MATCH_PARAMS, args))
    case TokensReplace => Ok(TypeCheckAccepts(TOKENS_REPLACE_PARAMS, args))
    case StringMatch => Ok(TypeCheckAccepts(STRING_MATCH_PARAMS, args))
    case StringReplace => Ok(TypeCheckAccepts(STRING_REPLACE_PARAMS, args))
    case TokenStringSplit => Ok(TypeCheckAccepts(TOKEN_STRING_SPLIT_PARAMS, args))
    case Compare(_) =>
      var c := CompareCheck(Some(NumberClass), args);
      if c.Err? then Err(NullPointer) else c
    case EqualsFn => Ok(PairAccepts(args))
    case NotEqualsFn => Ok(PairAccepts(args))
    case AnnotationFn => Ok(AnnotationAccepts(args))
    case GetAnnotationTagFn => Ok(GetAnnotationTagAccepts(args))
    case SetAnnotationTagFn => Ok(SetAnnotationTagAccepts(args))
    case RemoveAnnotationTagFn => Ok(RemoveAnnotationTagAccepts(args))
    case TagsValueFn => Ok(TagsValueAccepts(args))
    case SetValueTagFn => Ok(SetValueTagAccepts(args))
    case GetValueTagFn => Ok(ValueTagAccepts(args))
    case RemoveValueTagFn => Ok(ValueTagAccepts(args))
    case CompositeValueFn => Ok(CompositeValueAccepts(args))
    case CompositeKeysFn => Ok(CompositeKeysAccepts(args))
    case ObjectField => Ok(ObjectFieldAccepts(args))
    case ListValueFn => Ok(ListValueAccepts(args))
    case MapValueFn => Ok(MapValueAccepts(args))
    case MapKeysFn => Ok(MapKeysAccepts(args))
    case AggregateFn => Ok(AggregateAccepts(args))
  }

  /** CollectionValuedMap.get: the functions registered under a name, in registration order (none if unregistered). */
  function Lookup(table: map<string, seq<Builtin>>, name: string): seq<Builtin> {
    if name in table then table[name] else []
  }

  /** The registry: a name to the functions registered under it. */
  class FunctionRegistry {
    var table: map<string, seq<Builtin>>

    constructor ()
      ensures table == map[]
    {
      table := map[];
    }

    /** CollectionValuedMap.add: append a function to a name's collection. */
    method Add(name: string, f: Builtin)
      modifies this
      ensures name in old(table) ==> table == old(table)[name := old(table)[name] + [f]]
      ensures name !in old(table) ==> table == old(table)[name := [f]]
    {
      if name in table {
        table := table[name := table[name] + [f]];
      } else {
        table := table[name := [f]];
      }
    }

    /** The static initializer: every registration, in source order, one
        section (a block of the initializer) at a time. Before each section,
        a lemma establishes that none of its names is registered yet. */
    method RegisterAll()
      modifies this
      requires table == map[]
      ensures table == REGISTERED
    {
      RegisterNumeric();
      BooleanNamesNew();
      RegisterBoolean();
      StringNamesNew();
      RegisterString();
      MapNamesNew();
      RegisterMap();
      MatchReplaceNamesNew();
      RegisterMatchReplace();
      ComparisonNamesNew();
      RegisterComparison();
      ValueTagsNamesNew();
      RegisterValueTags();
      AnnotationTagsNamesNew();
      RegisterAnnotationTags();
      SplitAnnotateAggregateNamesNew();
      RegisterSplitAnnotateAggregate();
      CreateRegexNamesNew();
      RegisterCreateRegex();
      SelectNamesNew();
      RegisterSelect();
      KeysNamesNew();
      RegisterKeys();
      SetNameNew();
      RegisterAccessors("Set");
      GetNameNew();
      RegisterAccessors("Get");
    }

    /** Registers the numeric functions. */
    method RegisterNumeric()
      modifies this
      requires "Add" !in table && "Subtract" !in table && "Multiply" !in table && "Divide" !in table && "Mod" !in table && "Negate" !in table
      ensures table == old(table)["Add" := [Numeric(AddOp)]]["Subtract" := [Numeric(SubtractOp)]]["Multiply" := [Numeric(MultiplyOp)]]["Divide" := [Numeric(DivideOp)]]["Mod" := [Numeric(ModOp)]]["Negate" := [Numeric(NegateOp)]]
    {
      Add("Add", Numeric(AddOp));
      assert "Subtract" !in table;
      Add("Subtract", Numeric(SubtractOp));
      assert "Multiply" !in table;
      Add("Multiply", Numeric(MultiplyOp));
      assert "Divide" !in table;
      Add("Divide", Numeric(DivideOp));
      assert "Mod" !in table;
      Add("Mod", Numeric(ModOp));
      assert "Negate" !in table;
      Add("Negate", Numeric(NegateOp));
    }

    /** Registers the boolean functions. */
    method RegisterBoolean()
      modifies this
      requires "And" !in table && "Or" !in table && "Not" !in table
      ensures table == old(table)["And" := [Boolean(AndOp)]]["Or" := [Boolean(OrOp)]]["Not" := [Boolean(NotOp)]]
    {
      Add("And", Boolean(AndOp));
      assert "Or" !in table;
      Add("Or", Boolean(OrOp));
      assert "Not" !in table;
      Add("Not", Boolean(NotOp));
    }

    /** Registers the string functions. */
    method RegisterString()
      modifies this
      requires "Format" !in table && "Concat" !in table && "Join" !in table && "Lowercase" !in table && "Uppercase" !in table
      ensures table == old(table)["Format" := [Format]]["Concat" := [StringFn(ConcatOp)]]["Join" := [JoinFn]]["Lowercase" := [StringFn(LowercaseOp)]]["Uppercase" := [StringFn(UppercaseOp)]]
    {
      Add("Format", Format);
      assert "Concat" !in table;
      Add("Concat", StringFn(ConcatOp));
      assert "Join" !in table;
      Add("Join", JoinFn);
      assert "Lowercase" !in table;
      Add("Lowercase", StringFn(LowercaseOp));
      assert "Uppercase" !in table;
      Add("Uppercase", StringFn(UppercaseOp));
    }

    /** Registers MAP_VALUES and then MAP under "Map". */
    method RegisterMap()
      modifies this
      requires "Map" !in table
      ensures table == old(table)["Map" := [MapValuesFn, MapFn]]
    {
      Add("Map", MapValuesFn);
      Add("Map", MapFn);
      assert [MapValuesFn] + [MapFn] == [MapValuesFn, MapFn];
    }

    /** Registers the token overload and then the string overload of "Match" and of "Replace". */
    method RegisterMatchReplace()
      modifies this
      requires "Match" !in table && "Replace" !in table
      ensures table == old(table)["Match" := [TokensMatch, StringMatch]]["Replace" := [TokensReplace, StringReplace]]
    {
      Add("Match", TokensMatch);
      Add("Match", StringMatch);
      assert [TokensMatch] + [StringMatch] == [TokensMatch, StringMatch];
      assert "Replace" !in table;
      Add("Replace", TokensReplace);
      Add("Replace", StringReplace);
      assert [TokensReplace] + [StringReplace] == [TokensReplace, StringReplace];
    }

    /** Registers the numeric comparisons, and then EQUALS under "EQ" and NOT_EQUALS under "NE" after them. */
    method RegisterComparison()
      modifies this
      requires "GE" !in table && "GT" !in table && "LE" !in table && "LT" !in table && "EQ" !in table && "NE" !in table
      ensures table == old(table)["GE" := [Compare(CompareType.GE)]]["GT" := [Compare(CompareType.GT)]]["LE" := [Compare(CompareType.LE)]]["LT" := [Compare(CompareType.LT)]]["EQ" := [Compare(CompareType.EQ), EqualsFn]]["NE" := [Compare(CompareType.NE), NotEqualsFn]]
    {
      RegisterCompareFunctions();
      Add("EQ", EqualsFn);
      assert [Compare(CompareType.EQ)] + [EqualsFn] == [Compare(CompareType.EQ), EqualsFn];
      Add("NE", NotEqualsFn);
      assert [Compare(CompareType.NE)] + [NotEqualsFn] == [Compare(CompareType.NE), NotEqualsFn];
    }

    /** Registers one CompareFunction over numbers under each comparison's name. */
    method RegisterCompareFunctions()
      modifies this
      requires "GE" !in table && "GT" !in table && "LE" !in table && "LT" !in table && "EQ" !in table && "NE" !in table
      ensures table == old(table)["GE" := [Compare(CompareType.GE)]]["GT" := [Compare(CompareType.GT)]]["LE" := [Compare(CompareType.LE)]]["LT" := [Compare(CompareType.LT)]]["EQ" := [Compare(CompareType.EQ)]]["NE" := [Compare(CompareType.NE)]]
    {
      Add("GE", Compare(CompareType.GE));
      assert "GT" !in table;
      Add("GT", Compare(CompareType.GT));
      assert "LE" !in table;
      Add("LE", Compare(CompareType.LE));
      assert "LT" !in table;
      Add("LT", Compare(CompareType.LT));
      assert "EQ" !in table;
      Add("EQ", Compare(CompareType.EQ));
      assert "NE" !in table;
      Add("NE", Compare(CompareType.NE));
    }

    /** Registers the value-tag functions. */
    method RegisterValueTags()
      modifies this
      requires "VTag" !in table && "GetVTag" !in table && "RemoveVTag" !in table
      ensures table == old(table)["VTag" := [SetValueTagFn]]["GetVTag" := [GetValueTagFn]]["RemoveVTag" := [RemoveValueTagFn]]
    {
      Add("VTag", SetValueTagFn);
      assert "GetVTag" !in table;
      Add("GetVTag", GetValueTagFn);
      assert "RemoveVTag" !in table;
      Add("RemoveVTag", RemoveValueTagFn);
    }

    /** Registers the annotation-tag functions. */
    method RegisterAnnotationTags()
      modifies this
      requires "Tag" !in table && "GetTag" !in table && "RemoveTag" !in table
      ensures table == old(table)["Tag" := [SetAnnotationTagFn]]["GetTag" := [GetAnnotationTagFn]]["RemoveTag" := [RemoveAnnotationTagFn]]
    {
      Add("Tag", SetAnnotationTagFn);
      assert "GetTag" !in table;
      Add("GetTag", GetAnnotationTagFn);
      assert "RemoveTag" !in table;
      Add("RemoveTag", RemoveAnnotationTagFn);
    }

    /** Registers TOKEN_STRING_SPLIT, ANNOTATION_VALUE and AGGREGATE. */
    method RegisterSplitAnnotateAggregate()
      modifies this
      requires "Split" !in table && "Annotate" !in table && "Aggregate" !in table
      ensures table == old(table)["Split" := [TokenStringSplit]]["Annotate" := [AnnotationFn]]["Aggregate" := [AggregateFn]]
    {
      Add("Split", TokenStringSplit);
      assert "Annotate" !in table;
      Add("Annotate", AnnotationFn);
      assert "Aggregate" !in table;
      Add("Aggregate", AggregateFn);
    }

    /** Registers CREATE_REGEX. */
    method RegisterCreateRegex()
      modifies this
      requires "CreateRegex" !in table
      ensures table == old(table)["CreateRegex" := [CreateRegex]]
    {
      Add("CreateRegex", CreateRegex);
    }

    /** Registers the six overloads of "Select" (ANNOTATION_VALUE twice) and LIST_VALUE under "ListSelect". */
    method RegisterSelect()
      modifies this
      requires "Select" !in table && "ListSelect" !in table
      ensures table == old(table)["Select" := [CompositeValueFn, MapValueFn, TagsValueFn, AnnotationFn, AnnotationFn, ObjectField]]["ListSelect" := [ListValueFn]]
    {
      RegisterSelectOverloads();
      assert "ListSelect" !in table;
      Add("ListSelect", ListValueFn);
    }

    /** Registers COMPOSITE_VALUE, MAP_VALUE, TAGS_VALUE, ANNOTATION_VALUE (twice) and OBJECT_FIELD under "Select". */
    method RegisterSelectOverloads()
      modifies this
      requires "Select" !in table
      ensures table == old(table)["Select" := [CompositeValueFn, MapValueFn, TagsValueFn, AnnotationFn, AnnotationFn, ObjectField]]
    {
      Add("Select", CompositeValueFn);
      Add("Select", MapValueFn);
      assert [CompositeValueFn] + [MapValueFn] == [CompositeValueFn, MapValueFn];
      Add("Select", TagsValueFn);
      assert [CompositeValueFn, MapValueFn] + [TagsValueFn] == [CompositeValueFn, MapValueFn, TagsValueFn];
      Add("Select", AnnotationFn);
      assert [CompositeValueFn, MapValueFn, TagsValueFn] + [AnnotationFn] == [CompositeValueFn, MapValueFn, TagsValueFn, AnnotationFn];
      Add("Select", AnnotationFn);
      assert [CompositeValueFn, MapValueFn, TagsValueFn, AnnotationFn] + [AnnotationFn] == [CompositeValueFn, MapValueFn, TagsValueFn, AnnotationFn, AnnotationFn];
      Add("Select", ObjectField);
      assert [CompositeValueFn, MapValueFn, TagsValueFn, AnnotationFn, AnnotationFn] + [ObjectField] == [CompositeValueFn, MapValueFn, TagsValueFn, AnnotationFn, AnnotationFn, ObjectField];
    }

    /** Registers MAP_KEYS and then COMPOSITE_KEYS under "Keys". */
    method RegisterKeys()
      modifies this
      requires "Keys" !in table
      ensures table == old(table)["Keys" := [MapKeysFn, CompositeKeysFn]]
    {
      Add("Keys", MapKeysFn);
      Add("Keys", CompositeKeysFn);
      assert [MapKeysFn] + [CompositeKeysFn] == [MapKeysFn, CompositeKeysFn];
    }

    /** Registers TAGS_VALUE, COMPOSITE_VALUE, MAP_VALUE, ANNOTATION_VALUE,
        OBJECT_FIELD and LIST_VALUE under one name (the "Set" and the "Get" sections). */
    method RegisterAccessors(name: string)
      modifies this
      requires name !in table
      ensures table == old(table)[name := ACCESSORS]
    {
      Add(name, TagsValueFn);
      Add(name, CompositeValueFn);
      assert [TagsValueFn] + [CompositeValueFn] == [TagsValueFn, CompositeValueFn];
      Add(name, MapValueFn);
      assert [TagsValueFn, CompositeValueFn] + [MapValueFn] == [TagsValueFn, CompositeValueFn, MapValueFn];
      Add(name, AnnotationFn);
      assert [TagsValueFn, CompositeValueFn, MapValueFn] + [AnnotationFn] == [TagsValueFn, CompositeValueFn, MapValueFn, AnnotationFn];
      Add(name, ObjectField);
      assert [TagsValueFn, CompositeValueFn, MapValueFn, AnnotationFn] + [ObjectField] == [TagsValueFn, CompositeValueFn, MapValueFn, AnnotationFn, ObjectField];
      Add(name, ListValueFn);
      assert [TagsValueFn, CompositeValueFn, MapValueFn, AnnotationFn, ObjectField] + [ListValueFn] == [TagsValueFn, CompositeValueFn, MapValueFn, AnnotationFn, ObjectField, ListValueFn];
    }
  }

  /** The six accessors registered under both "Set" and "Get", in registration order. */
  const ACCESSORS := [TagsValueFn, CompositeValueFn, MapValueFn, AnnotationFn, ObjectField, ListValueFn]

  /** The registry after the numeric functions. */
  const REGISTERED_NUMERIC: map<string, seq<Builtin>> :=
    map[]["Add" := [Numeric(AddOp)]]
      ["Subtract" := [Numeric(SubtractOp)]]
      ["Multiply" := [Numeric(MultiplyOp)]]
      ["Divide" := [Numeric(DivideOp)]]
      ["Mod" := [Numeric(ModOp)]]
      ["Negate" := [Numeric(NegateOp)]]

  /** The registry after the boolean functions. */
  const REGISTERED_BOOLEAN: map<string, seq<Builtin>> :=
    REGISTERED_NUMERIC["And" := [Boolean(AndOp)]]
      ["Or" := [Boolean(OrOp)]]
      ["Not" := [Boolean(NotOp)]]

  /** The registry after the string functions. */
  const REGISTERED_STRING: map<string, seq<Builtin>> :=
    REGISTERED_BOOLEAN["Format" := [Format]]
      ["Concat" := [StringFn(ConcatOp)]]
      ["Join" := [JoinFn]]
      ["Lowercase" := [StringFn(LowercaseOp)]]
      ["Uppercase" := [StringFn(UppercaseOp)]]

  /** The registry after MAP_VALUES and then MAP under "Map". */
  const REGISTERED_MAP: map<string, seq<Builtin>> :=
    REGISTERED_STRING["Map" := [MapValuesFn, MapFn]]

  /** The registry after the token overload and then the string overload of "Match" and of "Replace". */
  const REGISTERED_MATCH_REPLACE: map<string, seq<Builtin>> :=
    REGISTERED_MAP["Match" := [TokensMatch, StringMatch]]
      ["Replace" := [TokensReplace, StringReplace]]

  /** The registry after the numeric comparisons, and then EQUALS under "EQ" and NOT_EQUALS under "NE" after them. */
  const REGISTERED_COMPARISON: map<string, seq<Builtin>> :=
    REGISTERED_MATCH_REPLACE["GE" := [Compare(CompareType.GE)]]
      ["GT" := [Compare(CompareType.GT)]]
      ["LE" := [Compare(CompareType.LE)]]
      ["LT" := [Compare(CompareType.LT)]]
      ["EQ" := [Compare(CompareType.EQ), EqualsFn]]
      ["NE" := [Compare(CompareType.NE), NotEqualsFn]]

  /** The registry after the value-tag functions. */
  const REGISTERED_VALUE_TAGS: map<string, seq<Builtin>> :=
    REGISTERED_COMPARISON["VTag" := [SetValueTagFn]]
      ["GetVTag" := [GetValueTagFn]]
      ["RemoveVTag" := [RemoveValueTagFn]]

  /** The registry after the annotation-tag functions. */
  const REGISTERED_ANNOTATION_TAGS: map<string, seq<Builtin>> :=
    REGISTERED_VALUE_TAGS["Tag" := [SetAnnotationTagFn]]
      ["GetTag" := [GetAnnotationTagFn]]
      ["RemoveTag" := [RemoveAnnotationTagFn]]

  /** The registry after TOKEN_STRING_SPLIT, ANNOTATION_VALUE and AGGREGATE. */
  const REGISTERED_SPLIT_ANNOTATE_AGGREGATE: map<string, seq<Builtin>> :=
    REGISTERED_ANNOTATION_TAGS["Split" := [TokenStringSplit]]
      ["Annotate" := [AnnotationFn]]
      ["Aggregate" := [AggregateFn]]

  /** The registry after CREATE_REGEX. */
  const REGISTERED_CREATE_REGEX: map<string, seq<Builtin>> :=
    REGISTERED_SPLIT_ANNOTATE_AGGREGATE["CreateRegex" := [CreateRegex]]

  /** The registry after the six overloads of "Select" (ANNOTATION_VALUE twice) and LIST_VALUE under "ListSelect". */
  const REGISTERED_SELECT: map<string, seq<Builtin>> :=
    REGISTERED_CREATE_REGEX["Select" := [CompositeValueFn, MapValueFn, TagsValueFn, AnnotationFn, AnnotationFn, ObjectField]]
      ["ListSelect" := [ListValueFn]]

  /** The registry after MAP_KEYS and then COMPOSITE_KEYS under "Keys". */
  const REGISTERED_KEYS: map<string, seq<Builtin>> :=
    REGISTERED_SELECT["Keys" := [MapKeysFn, CompositeKeysFn]]

  /** The registry once the static initializer has run. */
  const REGISTERED: map<string, seq<Builtin>> :=
    REGISTERED_KEYS["Set" := ACCESSORS]["Get" := ACCESSORS]

  // No section registers a name an earlier section registered.

  lemma BooleanNamesNew()
    ensures "And" !in REGISTERED_NUMERIC && "Or" !in REGISTERED_NUMERIC && "Not" !in REGISTERED_NUMERIC
  {
  }

  lemma StringNamesNew()
    ensures "Format" !in REGISTERED_BOOLEAN && "Concat" !in REGISTERED_BOOLEAN && "Join" !in REGISTERED_BOOLEAN && "Lowercase" !in REGISTERED_BOOLEAN && "Uppercase" !in REGISTERED_BOOLEAN
  {
  }

  lemma MapNamesNew()
    ensures "Map" !in REGISTERED_STRING
  {
  }

  lemma MatchReplaceNamesNew()
    ensures "Match" !in REGISTERED_MAP && "Replace" !in REGISTERED_MAP
  {
  }

  lemma ComparisonNamesNew()
    ensures "GE" !in REGISTERED_MATCH_REPLACE && "GT" !in REGISTERED_MATCH_REPLACE && "LE" !in REGISTERED_MATCH_REPLACE && "LT" !in REGISTERED_MATCH_REPLACE && "EQ" !in REGISTERED_MATCH_REPLACE && "NE" !in REGISTERED_MATCH_REPLACE
  {
  }

  lemma ValueTagsNamesNew()
    ensures "VTag" !in REGISTERED_COMPARISON && "GetVTag" !in REGISTERED_COMPARISON && "RemoveVTag" !in REGISTERED_COMPARISON
  {
  }

  lemma AnnotationTagsNamesNew()
    ensures "Tag" !in REGISTERED_VALUE_TAGS && "GetTag" !in REGISTERED_VALUE_TAGS && "RemoveTag" !in REGISTERED_VALUE_TAGS
  {
  }

  lemma SplitAnnotateAggregateNamesNew()
    ensures "Split" !in REGISTERED_ANNOTATION_TAGS && "Annotate" !in REGISTERED_ANNOTATION_TAGS && "Aggregate" !in REGISTERED_ANNOTATION_TAGS
  {
  }

  lemma CreateRegexNamesNew()
    ensures "CreateRegex" !in REGISTERED_SPLIT_ANNOTATE_AGGREGATE
  {
  }

  lemma SelectNamesNew()
    ensures "Select" !in REGISTERED_CREATE_REGEX && "ListSelect" !in REGISTERED_CREATE_REGEX
  {
  }

  lemma KeysNamesNew()
    ensures "Keys" !in REGISTERED_SELECT
  {
  }

  lemma SetNameNew()
    ensures "Set" !in REGISTERED_KEYS
  {
  }

  lemma GetNameNew()
    ensures "Get" !in REGISTERED_KEYS["Set" := ACCESSORS]
  {
  }

  // ---------------------------------------------------------------- lookup

  /** What `lookupFunctionObject` returns: an object bound in the environment, or the registry's candidates. */
  datatype FunctionObject = EnvBound(obj: Obj) | Candidates(fns: seq<Builtin>)

  /** lookupFunctionObject: a non-null binding of the name in the environment
      shadows the registry; otherwise the registered functions. */
  function LookupFunctionObject(env: Option<Env>, table: map<string, seq<Builtin>>, name: string): (r: FunctionObject)
    ensures r.EnvBound? <==> env.Some? && name in env.value.vars && !env.value.vars[name].Null?
    ensures r.EnvBound? ==> r.obj == env.value.vars[name]
    ensures r.Candidates? ==> r.fns == Lookup(table, name)
  {
    if env.Some? && name in env.value.vars && !env.value.vars[name].Null? then EnvBound(env.value.vars[name])
    else Candidates(Lookup(table, name))
  }

  // ---------------------------------------------------------------- resolution

  /** The index of the first candidate whose check accepts; a check that
      throws ends the search with its exception. */
  function FirstMatch(cands: seq<Builtin>, args: seq<Value?>): (r: Result<Option<nat>, Error>)
    ensures r.Ok? && r.value.Some? ==>
      && r.value.value < |cands|
      && CheckArgs(cands[r.value.value], args) == Ok(true)
      && forall j :: 0 <= j < r.value.value ==> CheckArgs(cands[j], args) == Ok(false)
    ensures r == Ok(None) <==> forall j :: 0 <= j < |cands| ==> CheckArgs(cands[j], args) == Ok(false)
    ensures r.Err? ==>
      exists k :: && 0 <= k < |cands|
                  && CheckArgs(cands[k], args) == Err(r.error)
                  && forall j :: 0 <= j < k ==> CheckArgs(cands[j], args) == Ok(false)
    decreases |cands|
  {
    if |cands| == 0 then Ok(None)
    else
      match CheckArgs(cands[0], args)
      case Err(e) => Err(e)
      case Ok(true) => Ok(Some(0))
      case Ok(false) =>
        match FirstMatch(cands[1..], args)
        case Err(e) => Err(e)
        case Ok(None) => Ok(None)
        case Ok(Some(k)) => Ok(Some(k + 1))
  }

  /** What a call resolves to: the environment's object, or a registered built-in. */
  datatype Resolution = EnvObject(obj: Obj) | Registered(fn: Builtin)

  /** Resolution of a call by name: an environment binding wins; no
      registered function is an unknown function; no accepting candidate is a
      failed resolution; otherwise the first accepting candidate. */
  function Resolve(env: Option<Env>, table: map<string, seq<Builtin>>, name: string, args: seq<Value?>): (r: Result<Resolution, Error>)
    ensures LookupFunctionObject(env, table, name).EnvBound? ==>
      r == Ok(EnvObject(LookupFunctionObject(env, table, name).obj))
    ensures r.Ok? && r.value.Registered? ==>
      var cands := Lookup(table, name);
      && LookupFunctionObject(env, table, name).Candidates?
      && exists k :: && 0 <= k < |cands|
                     && cands[k] == r.value.fn
                     && CheckArgs(r.value.fn, args) == Ok(true)
                     && forall j :: 0 <= j < k ==> CheckArgs(cands[j], args) == Ok(false)
    ensures r == Err(UnknownFunction) <==>
      LookupFunctionObject(env, table, name).Candidates? && |Lookup(table, name)| == 0
    ensures r == Err(NoMatchingOverload) <==>
      var cands := Lookup(table, name);
      && LookupFunctionObject(env, table, name).Candidates?
      && |cands| > 0
      && forall j :: 0 <= j < |cands| ==> CheckArgs(cands[j], args) == Ok(false)
  {
    match LookupFunctionObject(env, table, name)
    case EnvBound(o) => Ok(EnvObject(o))
    case Candidates(cands) =>
      if |cands| == 0 then Err(UnknownFunction)
      else
        match FirstMatch(cands, args)
        case Err(e) => Err(e)
        case Ok(None) => Err(NoMatchingOverload)
        case Ok(Some(k)) => Ok(Registered(cands[k]))
  }

  /** A call whose name the environment binds (to a non-null object) never reaches the registry. */
  lemma EnvShadowsRegistry(env: Env, table: map<string, seq<Builtin>>, name: string, args: seq<Value?>)
    requires name in env.vars && !env.vars[name].Null?
    ensures Resolve(Some(env), table, name, args) == Ok(EnvObject(env.vars[name]))
  {
  }

  /** Without an environment binding, a registered name with no accepting candidate fails to resolve. */
  lemma NoAcceptingCandidate(table: map<string, seq<Builtin>>, name: string, args: seq<Value?>)
    requires |Lookup(table, name)| > 0
    requires forall j :: 0 <= j < |Lookup(table, name)| ==> CheckArgs(Lookup(table, name)[j], args) == Ok(false)
    ensures Resolve(None, table, name, args) == Err(NoMatchingOverload)
  {
  }

  // ---------------------------------------------------------------- the registered overloads

  /** The candidates for "EQ": the numeric comparison before EQUALS. */
  lemma RegisteredEq()
    ensures Lookup(REGISTERED, "EQ") == [Compare(CompareType.EQ), EqualsFn]
  {
  }

  /** The candidates for "Select", with ANNOTATION_VALUE at positions 3 and 4. */
  lemma RegisteredSelect()
    ensures Lookup(REGISTERED, "Select") == [CompositeValueFn, MapValueFn, TagsValueFn, AnnotationFn, AnnotationFn, ObjectField]
  {
  }

  /** The candidates for "Keys": MAP_KEYS before COMPOSITE_KEYS. */
  lemma RegisteredKeys()
    ensures Lookup(REGISTERED, "Keys") == [MapKeysFn, CompositeKeysFn]
  {
  }

  /** The candidates for "Get": TAGS_VALUE first, then COMPOSITE_VALUE. */
  lemma RegisteredGet()
    ensures Lookup(REGISTERED, "Get") == ACCESSORS
  {
  }

  /** A comparison's check is CompareFunction.checkArgs with Number as the class. */
  lemma CompareCheckArgs(ct: CompareType, args: seq<Value?>)
    ensures CheckArgs(Compare(ct), args) == CompareCheck(Some(NumberClass), args)
  {
  }

  /** EQ on two numbers resolves to the numeric comparison, registered before EQUALS. */
  lemma EqOnNumbersCompares(a: Value, b: Value)
    requires IsNumber(a.payload) && IsNumber(b.payload)
    ensures Resolve(None, REGISTERED, "EQ", [a, b]) == Ok(Registered(Compare(CompareType.EQ)))
  {
    RegisteredEq();
    CompareCheckArgs(CompareType.EQ, [a, b]);
    var cands := [Compare(CompareType.EQ), EqualsFn];
    assert CheckArgs(cands[0], [a, b]) == Ok(true);
    assert FirstMatch(cands, [a, b]) == Ok(Some(0));
  }

  /** EQ resolves to EQUALS when an argument is absent or a payload is a
      non-null non-number: the numeric comparison's check declines. */
  lemma EqOtherwiseEquals(a: Value?, b: Value?)
    requires || a == null
             || (!a.payload.Null? && !IsNumber(a.payload))
             || (IsNumber(a.payload) && (b == null || (!b.payload.Null? && !IsNumber(b.payload))))
    ensures Resolve(None, REGISTERED, "EQ", [a, b]) == Ok(Registered(EqualsFn))
  {
    RegisteredEq();
    var cands := [Compare(CompareType.EQ), EqualsFn];
    assert CheckArgs(cands[0], [a, b]) == Ok(false);
    assert CheckArgs(cands[1], [a, b]) == Ok(true);
    assert FirstMatch(cands[1..], [a, b]) == Ok(Some(0));
  }

  /** EQ with a null payload first makes the numeric comparison's check throw,
      so EQUALS (which would accept) is never tried. */
  lemma EqOnNullPayloadThrows(a: Value, b: Value?)
    requires a.payload.Null?
    ensures Resolve(None, REGISTERED, "EQ", [a, b]) == Err(NullPointer)
    ensures CheckArgs(EqualsFn, [a, b]) == Ok(true)
  {
    RegisteredEq();
    assert CheckArgs(Compare(CompareType.EQ), [a, b]) == Err(NullPointer);
  }

  /** The second ANNOTATION_VALUE registered under "Select" is never the
      first accepting candidate: the first one has the same check. */
  lemma SelectDuplicateUnreachable(args: seq<Value?>)
    ensures FirstMatch(Lookup(REGISTERED, "Select"), args) != Ok(Some(4))
  {
    RegisteredSelect();
    var cands := Lookup(REGISTERED, "Select");
    assert cands[3] == cands[4];
  }

  /** "Keys" on a CompositeValue resolves to MAP_KEYS: its attributes are a
      Map, and MAP_KEYS is registered first, so COMPOSITE_KEYS is never chosen. */
  lemma KeysNeverCompositeKeys(args: seq<Value?>)
    requires |args| == 1 ==> CompositeShaped(args[0])
    ensures Resolve(None, REGISTERED, "Keys", args) != Ok(Registered(CompositeKeysFn))
  {
    RegisteredKeys();
    var cands := [MapKeysFn, CompositeKeysFn];
    if CheckArgs(CompositeKeysFn, args) == Ok(true) {
      assert CheckArgs(cands[0], args) == Ok(true);
    }
  }

  /** "Get" with a null first payload resolves to COMPOSITE_VALUE, the first candidate that lets null through. */
  lemma GetOnNullPicksCompositeValue(args: seq<Value?>)
    requires |args| == 2 || |args| == 3
    requires args[0] != null && args[0].payload.Null?
    ensures Resolve(None, REGISTERED, "Get", args) == Ok(Registered(CompositeValueFn))
  {
    RegisteredGet();
    assert CheckArgs(ACCESSORS[0], args) == Ok(false);
    assert CheckArgs(ACCESSORS[1], args) == Ok(true);
    assert FirstMatch(ACCESSORS[1..], args) == Ok(Some(0));
  }
}
