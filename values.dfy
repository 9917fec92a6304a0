/**
 * The runtime objects the TokensRegex value functions work on.
 *
 * A Java `Object` is an `Obj`: null, one of the boxed primitives, a string,
 * or a reference to one of the mutable containers below. A `Value` is the
 * typed, optionally tagged box that every function takes and returns; an
 * absent argument (a Java `null` in the argument list) is a `null` Value
 * reference, which is different from a Value whose payload is `Obj.Null`.
 */
module Values {
  import opened Wrappers
  import opened JavaInts

  /** An annotation key: the Java Class object naming a field of a record. */
  datatype Key = Key(name: string)

  /** Tags.TagsAnnotation, the record field that holds a record's Tags. */
  const TAGS_KEY: Key := Key("edu.stanford.nlp.ling.tokensregex.types.Tags$TagsAnnotation")

  /** The type names of Expressions (class Expressions is not part of this
      model; its constants are given their upper-case spellings). */
  const TYPE_NUMBER: string := "Number"
  const TYPE_BOOLEAN: string := "BOOLEAN"
  const TYPE_STRING: string := "STRING"
  const TYPE_LIST: string := "LIST"
  const TYPE_FUNCTION: string := "FUNCTION"
  const TYPE_REGEX: string := "REGEX"
  const TYPE_TOKEN_REGEX: string := "TOKEN_REGEX"

  /** A Java object reference. */
  datatype Obj =
    | Null
    | Long(l: i64)
    | Int(n32: i32)
    | Short(n16: i16)
    | Byte(n8: i8)
    | Double(bits: bv64)           // a java.lang.Double; its arithmetic is not modelled
    | Bool(b: bool)
    | Str(str: string)
    | ListRef(list: JList)         // a java.util.List
    | MapRef(jmap: JMap)           // a java.util.Map
    | RecordRef(rec: Record)       // a CoreMap (token, span, ...)
    | TagsRef(tags: Tags)
    | ValueRef(value: Value)
    | KeyRef(key: Key)             // a java.lang.Class used as an annotation key
    | VFunc(fid: nat)              // a ValueFunction object
    | JFunc(jid: nat)              // a java.util.Function object
    | TokenPattern(pid: nat)       // a TokenSequencePattern object
    | Other(oid: nat)              // any other object

  /** `o instanceof Number` */
  predicate IsNumber(o: Obj) {
    o.Long? || o.Int? || o.Short? || o.Byte? || o.Double?
  }

  /** ValueFunctions.isInteger: Long, Integer or Short (a Byte is a Number but not an integer here). */
  predicate IsInteger(o: Obj) {
    o.Long? || o.Int? || o.Short?
  }

  /** Number.longValue() of an integer-path number. */
  function LongValue(o: Obj): i64
    requires IsInteger(o)
  {
    match o
    case Long(l) => l
    case Int(n) => n as int as i64
    case Short(n) => n as int as i64
  }

  /** The Java classes that parameter descriptors and comparators name. */
  datatype JClass =
    | NumberClass | IntegerClass | BooleanClass | StringClass | ListClass | MapClass
    | CoreMapClass | TagsClass | ValueFunctionClass | FunctionClass | TokenSequencePatternClass
    | ClassClass | ObjectClass

  /** `c.isAssignableFrom(o.getClass())`, i.e. `o instanceof c`, for a non-null `o`. */
  predicate InstanceOf(o: Obj, c: JClass) {
    match c
    case NumberClass => IsNumber(o)
    case IntegerClass => o.Int?
    case BooleanClass => o.Bool?
    case StringClass => o.Str?
    case ListClass => o.ListRef?
    case MapClass => o.MapRef?
    case CoreMapClass => o.RecordRef?
    case TagsClass => o.TagsRef?
    case ValueFunctionClass => o.VFunc?
    case FunctionClass => o.JFunc?
    case TokenSequencePatternClass => o.TokenPattern?
    case ClassClass => o.KeyRef?
    case ObjectClass => !o.Null?
  }

  /** A Value. Its type name and payload never change after construction;
      its Tags are attached lazily. A CompositeValue is a Value whose payload
      is the Map of its attributes (so it is also `instanceof Map`). */
  class Value {
    const typeName: Option<string>
    const payload: Obj
    const isComposite: bool
    var tags: Tags?

    constructor (typeName: Option<string>, payload: Obj)
      ensures this.typeName == typeName && this.payload == payload
      ensures !isComposite && tags == null
    {
      this.typeName := typeName;
      this.payload := payload;
      this.isComposite := false;
      this.tags := null;
    }

    /** A CompositeValue over the given attribute map. */
    constructor Composite(typeName: Option<string>, attributes: JMap)
      ensures this.typeName == typeName && payload == MapRef(attributes)
      ensures isComposite && tags == null
    {
      this.typeName := typeName;
      this.payload := MapRef(attributes);
      this.isComposite := true;
      this.tags := null;
    }
  }

  /** The Java type guarantee that a CompositeValue's payload is its attribute Map. */
  predicate CompositeShaped(v: Value?) {
    v != null && v.isComposite ==> v.payload.MapRef? || v.payload.Null?
  }

  /** Tags: a mutable table from tag name to Value (a tag may be bound to null). */
  class Tags {
    var entries: map<string, Value?>

    constructor ()
      ensures entries == map[]
    {
      entries := map[];
    }
  }

  /** CoreMap: a record's fields by annotation key; a missing field reads as null. */
  class Record {
    var fields: map<Key, Obj>
  }

  /** A mutable java.util.List. */
  class JList {
    var elems: seq<Obj>

    constructor (elems: seq<Obj>)
      ensures this.elems == elems
    {
      this.elems := elems;
    }
  }

  /** A mutable java.util.Map (keys compare as Obj values: by value for
      primitives and strings, by reference for containers). */
  class JMap {
    var entries: map<Obj, Obj>
  }

  /** Map.get: null for a missing key. */
  function MapGet(m: map<Obj, Obj>, k: Obj): Obj {
    if k in m then m[k] else Null
  }

  /** CoreMap.get: null for a missing field. */
  function FieldGet(fields: map<Key, Obj>, k: Key): Obj {
    if k in fields then fields[k] else Null
  }

  /** Tags.getTag: null for a missing tag. */
  function TagGet(entries: map<string, Value?>, tag: string): Value? {
    if tag in entries then entries[tag] else null
  }

  /** The payload of a Value that may be absent: `(v != null) ? v.get() : null`. */
  function PayloadOrNull(v: Value?): Obj {
    if v != null then v.payload else Null
  }

  /** A Value stored as a raw Java object (an absent Value is stored as null). */
  function AsObj(v: Value?): Obj {
    if v != null then ValueRef(v) else Null
  }

  /** The type name and payload of a Value that a function creates; the pure
      function families return this rather than allocating. */
  datatype Content = Content(typeName: Option<string>, payload: Obj)

  /** The environment a call runs in: variable bindings (Env.get) and the
      string-to-annotation-key table (EnvLookup.lookupAnnotationKey). */
  datatype Env = Env(vars: map<string, Obj>, annotationKeys: map<string, Key>)

  /** EnvLookup.lookupAnnotationKey: None where the name resolves to no key. */
  function LookupAnnotationKey(env: Env, name: string): Option<Key> {
    if name in env.annotationKeys then Some(env.annotationKeys[name]) else None
  }

  /** The exceptions the functions raise, and the resolution failures. */
  datatype Error =
    | NullPointer
    | ClassCast
    | IndexOutOfBounds
    | Arithmetic
    | IllegalArgument(reason: string)
    | UnknownFunction
    | NoMatchingOverload
    | FloatingPointNotModelled
}
