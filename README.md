# TokensRegex value functions

This project models `ValueFunctions`, the built-in functions of the
TokensRegex rule language of Stanford CoreNLP, and proves properties of the
model. Each function takes a list of `Value`s: typed boxes around Java
objects that can carry tags. A function has an argument check (`checkArgs`)
and an `apply`. The static registry maps each function name to its
overloads in registration order. A call is resolved by looking the name up,
first in the environment and then in the registry, and taking the first
overload whose check accepts.

The modules follow the source's structure:

- `JavaInts` (java_ints.dfy): Java `long` arithmetic. Results wrap modulo 2^64, and division and remainder round toward zero.
- `Values` (values.dfy): Java objects (`Obj`) and the mutable `Value`, `Tags`, record (CoreMap), `List` and `Map` objects as classes. It also has the environment and the exceptions.
- `ArgChecks` (arg_checks.dfy): every function's `checkArgs`. This includes TypeCheckedFunction's parameter descriptors and the loop that checks them, the shared check of the numeric, boolean and string families, and CompareFunction's check.
- `Primitives` (primitives.dfy): arithmetic on the integer path, AND/OR/NOT, CONCAT/UPPERCASE/LOWERCASE/JOIN, CompareFunction with NUMBER_COMPARATOR, and EQUALS/NOT_EQUALS.
- `Accessors` (accessors.dfy): the functions that select and assign. These are LIST_VALUE, MAP_VALUE, MAP_KEYS, COMPOSITE_VALUE, COMPOSITE_KEYS, TAGS_VALUE, the value-tag functions, the annotation-tag functions and ANNOTATION_VALUE. Each is a method whose `modifies` clause names exactly what the source may change, and whose contract states the new state, after a failure as well as after success (see "Left out" for the one gap).
- `Aggregates` (aggregates.dfy): MAP_VALUES, MAP and AGGREGATE.
- `Registry` (registry.dfy): the registry as a class built by successive `add`s, `lookupFunctionObject`, and first-match resolution.

About resolution:

- Overload resolution is done by the expression evaluator, and the evaluator is not part of this model. It is written as the helper `Registry.Resolve`.
- A call with no registered candidate is `UnknownFunction`. A call whose candidates all decline is `NoMatchingOverload`.
- The lemmas about the registered table show three consequences of registration order:
  - "EQ" on a null first payload throws inside the numeric comparison's check, before EQUALS is tried.
  - The second ANNOTATION_VALUE under "Select" is never reached.
  - COMPOSITE_KEYS under "Keys" is never chosen.

AGGREGATE takes a function and an initial value (ValueFunctions.java:1203-1204) and evidently means a left fold. As written it throws on the first element to fold (see Findings). Both forms are modelled.

## Model

| member | source | states |
|---|---|---|
| JavaInts.Wrap64 | stanford-corenlp-full-2012-11-12/src/edu/stanford/nlp/ling/tokensregex/types/ValueFunctions.java:169-197 | the long result is the unique 64-bit value congruent to the exact result modulo 2^64, and equals it whenever it fits |
| JavaInts.TruncDiv | stanford-corenlp-full-2012-11-12/src/edu/stanford/nlp/ling/tokensregex/types/ValueFunctions.java:199-207 | `/` on longs rounds toward zero: its magnitude is the quotient of the magnitudes and its sign is that of the exact quotient |
| JavaInts.TruncRem | stanford-corenlp-full-2012-11-12/src/edu/stanford/nlp/ling/tokensregex/types/ValueFunctions.java:209-217 | `%` on longs recomposes the dividend with TruncDiv, is smaller in magnitude than the divisor and takes the dividend's sign |
| JavaInts.AddLong | stanford-corenlp-full-2012-11-12/src/edu/stanford/nlp/ling/tokensregex/types/ValueFunctions.java:172 | `+` on longs is the exact sum modulo 2^64, and the exact sum when it fits in a long |
| JavaInts.SubLong | stanford-corenlp-full-2012-11-12/src/edu/stanford/nlp/ling/tokensregex/types/ValueFunctions.java:182 | `-` on longs is the exact difference modulo 2^64, and the exact difference when it fits in a long |
| JavaInts.MulLong | stanford-corenlp-full-2012-11-12/src/edu/stanford/nlp/ling/tokensregex/types/ValueFunctions.java:192 | `*` on longs is the exact product modulo 2^64, and the exact product when it fits in a long |
| JavaInts.NegLong | stanford-corenlp-full-2012-11-12/src/edu/stanford/nlp/ling/tokensregex/types/ValueFunctions.java:222 | unary `-` on longs is exact except for Long.MIN_VALUE, which negates to itself |
| JavaInts.DivLong | stanford-corenlp-full-2012-11-12/src/edu/stanford/nlp/ling/tokensregex/types/ValueFunctions.java:202 | `/` on longs is the truncating quotient modulo 2^64, and Long.MIN_VALUE / -1 is Long.MIN_VALUE |
| JavaInts.RemLong | stanford-corenlp-full-2012-11-12/src/edu/stanford/nlp/ling/tokensregex/types/ValueFunctions.java:212 | the long remainder is Java's truncating remainder (always representable) |
| JavaInts.CompareLong | stanford-corenlp-full-2012-11-12/src/edu/stanford/nlp/ling/tokensregex/types/ValueFunctions.java:565-566 | Long.compareTo returns -1, 0 or 1 with its sign ordering the operands |
| JavaInts.DivLongExact | stanford-corenlp-full-2012-11-12/src/edu/stanford/nlp/ling/tokensregex/types/ValueFunctions.java:202 | long division is the exact truncated quotient except for Long.MIN_VALUE / -1 |
| JavaInts.TruncDivVersusEuclidean | stanford-corenlp-full-2012-11-12/src/edu/stanford/nlp/ling/tokensregex/types/ValueFunctions.java:202-212 | for a positive divisor, Java's `/` and `%` agree with Euclidean division on a non-negative dividend or an exact division; otherwise a negative dividend's quotient is one more and its remainder the Euclidean one less the divisor |
| JavaInts.TruncDivNegativeDivisor | stanford-corenlp-full-2012-11-12/src/edu/stanford/nlp/ling/tokensregex/types/ValueFunctions.java:202-212 | for a negative divisor, Java's `/` and `%` agree with Euclidean division on a non-negative dividend or an exact division; otherwise the quotient is one less and the remainder the Euclidean one plus the divisor |
| Values.InstanceOf | stanford-corenlp-full-2012-11-12/src/edu/stanford/nlp/ling/tokensregex/types/ValueFunctions.java:116 | `isAssignableFrom(o.getClass())` for a non-null object: each class admits its own kind of object, Number every numeric box, Object anything |
| Values.LookupAnnotationKey | stanford-corenlp-full-2012-11-12/src/edu/stanford/nlp/ling/tokensregex/types/ValueFunctions.java:704 | the annotation key the environment binds a name to, or none |
| ArgChecks.TypeCheckedCheckArgs | stanford-corenlp-full-2012-11-12/src/edu/stanford/nlp/ling/tokensregex/types/ValueFunctions.java:100-123 | the loop that stops at the first mismatch accepts exactly when the declarative check TypeCheckAccepts holds |
| ArgChecks.TypeCheckAcceptsIff | stanford-corenlp-full-2012-11-12/src/edu/stanford/nlp/ling/tokensregex/types/ValueFunctions.java:100-123 | a type-checked function accepts iff the count matches, every absent argument is nullable, every present one has the declared type name, and every non-null payload is an instance of the declared class |
| ArgChecks.FamilyCheckArgs | stanford-corenlp-full-2012-11-12/src/edu/stanford/nlp/ling/tokensregex/types/ValueFunctions.java:143-154 | the numeric, boolean and string check loop accepts exactly when FamilyAccepts holds (count when nargs > 0, every argument admitted) |
| ArgChecks.NumericCheckRejects | stanford-corenlp-full-2012-11-12/src/edu/stanford/nlp/ling/tokensregex/types/ValueFunctions.java:143-154 | the numeric check rejects a wrong count and any absent or non-Number argument |
| ArgChecks.CompareCheck | stanford-corenlp-full-2012-11-12/src/edu/stanford/nlp/ling/tokensregex/types/ValueFunctions.java:605-618 | CompareFunction.checkArgs: false unless two arguments; true without a class; with a class, true exactly when both arguments are present instances of it; a present first argument with a null payload, or a present null second payload after an accepted first, throws NullPointerException, and no other exception is thrown |
| ArgChecks.LeadingStringAccepts | stanford-corenlp-full-2012-11-12/src/edu/stanford/nlp/ling/tokensregex/types/ValueFunctions.java:365-373 | FORMAT's check, which JOIN's (387-395) repeats: at least one argument, the first present and holding a String |
| ArgChecks.CreateRegexAccepts | stanford-corenlp-full-2012-11-12/src/edu/stanford/nlp/ling/tokensregex/types/ValueFunctions.java:409-417 | CREATE_REGEX's check: at least one argument, the first present and holding a List |
| ArgChecks.PairAccepts | stanford-corenlp-full-2012-11-12/src/edu/stanford/nlp/ling/tokensregex/types/ValueFunctions.java:633-638 | NOT_EQUALS's check, which EQUALS's (658-663) repeats: exactly two arguments, absent or not |
| ArgChecks.RecordsOperand | stanford-corenlp-full-2012-11-12/src/edu/stanford/nlp/ling/tokensregex/types/ValueFunctions.java:689-692 | the operand test of ANNOTATION_VALUE and the annotation-tag checks: a present Value holding a CoreMap or a List |
| ArgChecks.StringValue | stanford-corenlp-full-2012-11-12/src/edu/stanford/nlp/ling/tokensregex/types/ValueFunctions.java:755 | the tag-name test of the tag checks: a present Value holding a String |
| ArgChecks.AnnotationAccepts | stanford-corenlp-full-2012-11-12/src/edu/stanford/nlp/ling/tokensregex/types/ValueFunctions.java:685-697 | ANNOTATION_VALUE's check: two or three arguments, a record or list operand, and a Class or String field |
| ArgChecks.GetAnnotationTagAccepts | stanford-corenlp-full-2012-11-12/src/edu/stanford/nlp/ling/tokensregex/types/ValueFunctions.java:746-759 | GET_ANNOTATION_TAG's check: two arguments; an absent or null operand passes, otherwise a record or list operand and a String tag |
| ArgChecks.SetAnnotationTagAccepts | stanford-corenlp-full-2012-11-12/src/edu/stanford/nlp/ling/tokensregex/types/ValueFunctions.java:792-804 | SET_ANNOTATION_TAG's check: two or three arguments, a record or list operand, and a String tag |
| ArgChecks.RemoveAnnotationTagAccepts | stanford-corenlp-full-2012-11-12/src/edu/stanford/nlp/ling/tokensregex/types/ValueFunctions.java:836-848 | REMOVE_ANNOTATION_TAG's check: two arguments, a record or list operand, and a String tag |
| ArgChecks.TagsValueAccepts | stanford-corenlp-full-2012-11-12/src/edu/stanford/nlp/ling/tokensregex/types/ValueFunctions.java:878-889 | TAGS_VALUE's check: two or three arguments, a Tags operand, and a String tag |
| ArgChecks.SetValueTagAccepts | stanford-corenlp-full-2012-11-12/src/edu/stanford/nlp/ling/tokensregex/types/ValueFunctions.java:906-917 | VALUE_TAG's check: two or three arguments, any present operand, and a String tag |
| ArgChecks.ValueTagAccepts | stanford-corenlp-full-2012-11-12/src/edu/stanford/nlp/ling/tokensregex/types/ValueFunctions.java:934-945 | GET_VALUE_TAG's check, which REMOVE_VALUE_TAG's (958-969) repeats: two arguments, any present operand, and a String tag |
| ArgChecks.CompositeValueAccepts | stanford-corenlp-full-2012-11-12/src/edu/stanford/nlp/ling/tokensregex/types/ValueFunctions.java:986-998 | COMPOSITE_VALUE's check: two or three arguments; an absent or null operand passes, otherwise a CompositeValue and a String field name |
| ArgChecks.CompositeKeysAccepts | stanford-corenlp-full-2012-11-12/src/edu/stanford/nlp/ling/tokensregex/types/ValueFunctions.java:1012-1021 | COMPOSITE_KEYS's check: one argument, absent, null or a CompositeValue |
| ArgChecks.ObjectFieldAccepts | stanford-corenlp-full-2012-11-12/src/edu/stanford/nlp/ling/tokensregex/types/ValueFunctions.java:1034-1046 | OBJECT_FIELD's check: two or three arguments; an absent or null operand passes, otherwise any operand and a String field name |
| ArgChecks.ListValueAccepts | stanford-corenlp-full-2012-11-12/src/edu/stanford/nlp/ling/tokensregex/types/ValueFunctions.java:1106-1118 | LIST_VALUE's check: two or three arguments; an absent or null operand passes, otherwise a List and an Integer index |
| ArgChecks.MapValueAccepts | stanford-corenlp-full-2012-11-12/src/edu/stanford/nlp/ling/tokensregex/types/ValueFunctions.java:1144-1156 | MAP_VALUE's check: two or three arguments; an absent or null operand passes, otherwise a Map and a present key with a non-null payload |
| ArgChecks.MapKeysAccepts | stanford-corenlp-full-2012-11-12/src/edu/stanford/nlp/ling/tokensregex/types/ValueFunctions.java:1184-1193 | MAP_KEYS's check: one argument, absent, null or a Map |
| ArgChecks.AggregateAccepts | stanford-corenlp-full-2012-11-12/src/edu/stanford/nlp/ling/tokensregex/types/ValueFunctions.java:1205-1215 | AGGREGATE's check: at least two arguments, a ValueFunction first and a present initial value |
| Primitives.CollectPayloads | stanford-corenlp-full-2012-11-12/src/edu/stanford/nlp/ling/tokensregex/types/ValueFunctions.java:160-163 | the conversion loop collects the payload of every argument in order |
| Primitives.Compute | stanford-corenlp-full-2012-11-12/src/edu/stanford/nlp/ling/tokensregex/types/ValueFunctions.java:169-227 | on the integer path the result is a Long; the only ArithmeticException is DIVIDE or MOD by an integer zero; any other failure is the unmodelled floating-point path |
| Primitives.IntegerPathWraps | stanford-corenlp-full-2012-11-12/src/edu/stanford/nlp/ling/tokensregex/types/ValueFunctions.java:169-227 | ADD, SUBTRACT, MULTIPLY and NEGATE of integers give the exact result modulo 2^64, and the exact result when it fits in a long |
| Primitives.IntegerPathDivides | stanford-corenlp-full-2012-11-12/src/edu/stanford/nlp/ling/tokensregex/types/ValueFunctions.java:199-217 | DIVIDE and MOD of integers throw for a zero divisor, otherwise give the truncating quotient and remainder, with Long.MIN_VALUE / -1 wrapping to Long.MIN_VALUE |
| Primitives.NumericApply | stanford-corenlp-full-2012-11-12/src/edu/stanford/nlp/ling/tokensregex/types/ValueFunctions.java:156-166 | NumericFunction.apply boxes the computed result with type name "Number" or propagates compute's exception |
| Primitives.And | stanford-corenlp-full-2012-11-12/src/edu/stanford/nlp/ling/tokensregex/types/ValueFunctions.java:272-279 | AND is true iff no argument is false |
| Primitives.Or | stanford-corenlp-full-2012-11-12/src/edu/stanford/nlp/ling/tokensregex/types/ValueFunctions.java:281-288 | OR is true iff some argument is true |
| Primitives.BooleanApply | stanford-corenlp-full-2012-11-12/src/edu/stanford/nlp/ling/tokensregex/types/ValueFunctions.java:259-269 | BooleanFunction.apply boxes, as a BOOLEAN, the conjunction, disjunction or negation of the unboxed arguments |
| Primitives.BooleanEmpty | stanford-corenlp-full-2012-11-12/src/edu/stanford/nlp/ling/tokensregex/types/ValueFunctions.java:272-288 | AND of no arguments is true and OR of none is false |
| Primitives.Stringify | stanford-corenlp-full-2012-11-12/src/edu/stanford/nlp/ling/tokensregex/types/ValueFunctions.java:332-340 | the conversion of a payload: a String is kept, any other non-null payload is converted, and only a null payload gives null |
| Primitives.Render | stanford-corenlp-full-2012-11-12/src/edu/stanford/nlp/ling/tokensregex/types/ValueFunctions.java:348 | a converted payload as StringUtils.join writes it: a string as it is, null as "null" |
| Primitives.Join | stanford-corenlp-full-2012-11-12/src/edu/stanford/nlp/ling/tokensregex/types/ValueFunctions.java:403 | StringUtils.join: the pieces in order with the glue between consecutive ones; JoinAppend and ConcatLength state its properties |
| Primitives.JoinAppend | stanford-corenlp-full-2012-11-12/src/edu/stanford/nlp/ling/tokensregex/types/ValueFunctions.java:403 | joining one more string appends the glue and the string |
| Primitives.ConcatLength | stanford-corenlp-full-2012-11-12/src/edu/stanford/nlp/ling/tokensregex/types/ValueFunctions.java:346-350 | CONCAT's result is as long as all its pieces together |
| Primitives.StringApply | stanford-corenlp-full-2012-11-12/src/edu/stanford/nlp/ling/tokensregex/types/ValueFunctions.java:327-362 | CONCAT joins the stringified arguments ("null" for a null payload) with no separator; UPPERCASE and LOWERCASE map the string and throw on a null payload |
| Primitives.JoinApply | stanford-corenlp-full-2012-11-12/src/edu/stanford/nlp/ling/tokensregex/types/ValueFunctions.java:397-405 | JOIN throws iff an element argument is absent; otherwise it joins the rendered payloads with the first argument as glue |
| Primitives.CompareSign | stanford-corenlp-full-2012-11-12/src/edu/stanford/nlp/ling/tokensregex/types/ValueFunctions.java:594-600 | the test each comparison type applies to the comparator's result: GT positive, LT negative, GE non-negative, LE non-positive, EQ zero, NE non-zero |
| Primitives.CompareTypesRelate | stanford-corenlp-full-2012-11-12/src/edu/stanford/nlp/ling/tokensregex/types/ValueFunctions.java:592-603 | EQ and NE are complements, GE is GT or EQ, LE is LT or EQ, GT is not LE and LT is not GE |
| Primitives.NumericComparator | stanford-corenlp-full-2012-11-12/src/edu/stanford/nlp/ling/tokensregex/types/ValueFunctions.java:562-571 | two integers compare as their long values; a non-Number operand fails the cast |
| Primitives.NumericCompareOrders | stanford-corenlp-full-2012-11-12/src/edu/stanford/nlp/ling/tokensregex/types/ValueFunctions.java:592-603 | each comparison type on integers is the corresponding order on their long values |
| Primitives.CompareApply | stanford-corenlp-full-2012-11-12/src/edu/stanford/nlp/ling/tokensregex/types/ValueFunctions.java:620-629 | CompareFunction.apply gives no Value iff an operand is absent or null, otherwise the comparison's sign test of the comparator's result (or its exception) |
| Primitives.NumericCompareSwaps | stanford-corenlp-full-2012-11-12/src/edu/stanford/nlp/ling/tokensregex/types/ValueFunctions.java:563-566 | swapping the operands exchanges GT with LT and GE with LE and keeps EQ |
| Primitives.EqualsApply | stanford-corenlp-full-2012-11-12/src/edu/stanford/nlp/ling/tokensregex/types/ValueFunctions.java:665-678 | EQUALS: presence-equality when an argument is absent, both-null when a payload is null, otherwise the payload's equals |
| Primitives.NotEqualsApply | stanford-corenlp-full-2012-11-12/src/edu/stanford/nlp/ling/tokensregex/types/ValueFunctions.java:640-653 | NOT_EQUALS is the negation of EQUALS on every argument pair |
| Primitives.EqualsReflexiveSymmetric | stanford-corenlp-full-2012-11-12/src/edu/stanford/nlp/ling/tokensregex/types/ValueFunctions.java:665-678 | EQUALS is reflexive and symmetric whenever the payloads' equals is |
| Accessors.ResolveIndex | stanford-corenlp-full-2012-11-12/src/edu/stanford/nlp/ling/tokensregex/types/ValueFunctions.java:1123-1125 | a negative index counts back from the end of the list, a non-negative one is kept |
| Accessors.ResolveIndexInRange | stanford-corenlp-full-2012-11-12/src/edu/stanford/nlp/ling/tokensregex/types/ValueFunctions.java:1123-1134 | the resolved index is in range exactly when -size <= index < size |
| Accessors.ListValue | stanford-corenlp-full-2012-11-12/src/edu/stanford/nlp/ling/tokensregex/types/ValueFunctions.java:1119-1137 | null for a null operand; an out-of-range index throws and leaves the list unchanged; otherwise the element is first assigned the third argument's payload when there is one, and a new Value holds the element |
| Accessors.MapWrite | stanford-corenlp-full-2012-11-12/src/edu/stanford/nlp/ling/tokensregex/types/ValueFunctions.java:1161-1168 | MAP_VALUE's assignment changes only the key's entry, and an absent value removes it |
| Accessors.MapRead | stanford-corenlp-full-2012-11-12/src/edu/stanford/nlp/ling/tokensregex/types/ValueFunctions.java:1169-1176 | Map.get of the key; only a two-argument call with a String key whose entry is null can read anything else, and then it reads the entry of the annotation key the environment resolves the string to |
| Accessors.MapWriteThenRead | stanford-corenlp-full-2012-11-12/src/edu/stanford/nlp/ling/tokensregex/types/ValueFunctions.java:1161-1169 | a three-argument MAP_VALUE reads back the payload it wrote (null for an absent value) |
| Accessors.RemovedStringKeyFallsBack | stanford-corenlp-full-2012-11-12/src/edu/stanford/nlp/ling/tokensregex/types/ValueFunctions.java:1166-1176 | after a String key is removed, a two-argument read falls back on the entry of the annotation key the environment resolves it to |
| Accessors.MapReadPresentKey | stanford-corenlp-full-2012-11-12/src/edu/stanford/nlp/ling/tokensregex/types/ValueFunctions.java:1169-1176 | a key with a non-null entry is read directly, whatever the environment says |
| Accessors.MapValue | stanford-corenlp-full-2012-11-12/src/edu/stanford/nlp/ling/tokensregex/types/ValueFunctions.java:1157-1179 | null for a null operand; otherwise the map is updated by MapWrite for three arguments and left unchanged for two, and a new Value holds the entry read with the annotation-key fallback |
| Accessors.Enumerate | stanford-corenlp-full-2012-11-12/src/edu/stanford/nlp/ling/tokensregex/types/ValueFunctions.java:1197 | the key list holds each key of the set exactly once |
| Accessors.MapKeys | stanford-corenlp-full-2012-11-12/src/edu/stanford/nlp/ling/tokensregex/types/ValueFunctions.java:1194-1199 | null for a null operand; otherwise a new LIST Value of a new list holding each key of the map exactly once |
| Accessors.CompositeKeys | stanford-corenlp-full-2012-11-12/src/edu/stanford/nlp/ling/tokensregex/types/ValueFunctions.java:1022-1027 | null for a null operand; otherwise a new LIST Value of a new list holding each attribute name exactly once |
| Accessors.CompositeGet | stanford-corenlp-full-2012-11-12/src/edu/stanford/nlp/ling/tokensregex/types/ValueFunctions.java:1006 | an attribute reads as null iff it is unset or null; a stored Value is read as it is; a stored object that is not a Value fails the cast with ClassCastException |
| Accessors.CompositeSetThenGet | stanford-corenlp-full-2012-11-12/src/edu/stanford/nlp/ling/tokensregex/types/ValueFunctions.java:1003-1006 | an attribute reads back the Value last stored under it |
| Accessors.CompositeValue | stanford-corenlp-full-2012-11-12/src/edu/stanford/nlp/ling/tokensregex/types/ValueFunctions.java:999-1007 | null for a null operand; otherwise the attribute is first set for three arguments, and the result is CompositeGet of the new attributes, which is the stored Value |
| Accessors.TagsValue | stanford-corenlp-full-2012-11-12/src/edu/stanford/nlp/ling/tokensregex/types/ValueFunctions.java:890-899 | the Tags entry is first bound for three arguments, and the result is the tag's binding (the stored Value) |
| Accessors.ValueTag | stanford-corenlp-full-2012-11-12/src/edu/stanford/nlp/ling/tokensregex/types/ValueFunctions.java:950-951 | without Tags a Value's tag reads as null; with Tags, a bound tag reads as its Value, and a non-null result is always such a binding |
| Accessors.GetValueTag | stanford-corenlp-full-2012-11-12/src/edu/stanford/nlp/ling/tokensregex/types/ValueFunctions.java:947-952 | the Value the tag is bound to in the first argument's Tags; null when it has no Tags or the tag is unbound |
| Accessors.SetValueTag | stanford-corenlp-full-2012-11-12/src/edu/stanford/nlp/ling/tokensregex/types/ValueFunctions.java:918-928 | the Value's Tags (created when missing) bind the tag to the third argument or null and are otherwise unchanged; the Value itself is returned |
| Accessors.RemoveValueTag | stanford-corenlp-full-2012-11-12/src/edu/stanford/nlp/ling/tokensregex/types/ValueFunctions.java:970-979 | the Value's Tags (created when missing) lose the tag and are otherwise unchanged; the Value itself is returned |
| Accessors.TagsField | stanford-corenlp-full-2012-11-12/src/edu/stanford/nlp/ling/tokensregex/types/ValueFunctions.java:761-765 | reading a record's Tags field succeeds only for a record, and a null element throws NullPointerException |
| Accessors.ElementTag | stanford-corenlp-full-2012-11-12/src/edu/stanford/nlp/ling/tokensregex/types/ValueFunctions.java:761-765 | getTag fails exactly when the Tags field read fails, with its exception, and is null for a record without Tags |
| Accessors.SetTag | stanford-corenlp-full-2012-11-12/src/edu/stanford/nlp/ling/tokensregex/types/ValueFunctions.java:806-813 | setTag binds the tag in the existing Tags, or in new Tags stored in an empty Tags field; a non-Tags field throws ClassCastException and changes nothing |
| Accessors.RemoveTag | stanford-corenlp-full-2012-11-12/src/edu/stanford/nlp/ling/tokensregex/types/ValueFunctions.java:849-855 | removeTag unbinds the tag in the record's Tags, if any; afterwards getTag is null |
| Accessors.RecordsOf | stanford-corenlp-full-2012-11-12/src/edu/stanford/nlp/ling/tokensregex/types/ValueFunctions.java:823 | the CoreMap cast of each element: its record, or null for a non-record |
| Accessors.SetTagStep | stanford-corenlp-full-2012-11-12/src/edu/stanford/nlp/ling/tokensregex/types/ValueFunctions.java:823-825 | one loop pass tags its record and keeps the earlier records tagged; a record changes at most by new Tags, and Tags change at most at the tag |
| Accessors.SetTagEach | stanford-corenlp-full-2012-11-12/src/edu/stanford/nlp/ling/tokensregex/types/ValueFunctions.java:822-825 | the loop tags every record before the first bad element (whose index it returns); nothing changes beyond new Tags and the tag's bindings |
| Accessors.SetTagAll | stanford-corenlp-full-2012-11-12/src/edu/stanford/nlp/ling/tokensregex/types/ValueFunctions.java:821-825 | setTag over a list succeeds iff every element's Tags field reads without an exception, and then every element's tag is bound to the value; a failure carries the exception of the first element whose read fails, and every element before it is tagged; a record changes at most by new Tags and a Tags at most at the tag |
| Accessors.RemoveTagStep | stanford-corenlp-full-2012-11-12/src/edu/stanford/nlp/ling/tokensregex/types/ValueFunctions.java:864-866 | one loop pass removes the tag from its record and keeps it absent from the earlier records; only Tags change, at most at the tag |
| Accessors.RemoveTagEach | stanford-corenlp-full-2012-11-12/src/edu/stanford/nlp/ling/tokensregex/types/ValueFunctions.java:863-866 | the loop removes the tag from every record before the first bad element; no record's fields change |
| Accessors.RemoveTagAll | stanford-corenlp-full-2012-11-12/src/edu/stanford/nlp/ling/tokensregex/types/ValueFunctions.java:862-866 | removeTag over a list succeeds iff every element's Tags field reads, and then every element's tag reads as null; a failure carries the exception of the first element whose read fails, and every element before it lacks the tag; no record's fields change and a Tags changes at most at the tag |
| Accessors.TagAll | stanford-corenlp-full-2012-11-12/src/edu/stanford/nlp/ling/tokensregex/types/ValueFunctions.java:778-780 | getTag over a list succeeds iff it succeeds on every element, giving each element's tag in order; a failure carries the exception of the first failing element |
| Accessors.SetAnnotationTag | stanford-corenlp-full-2012-11-12/src/edu/stanford/nlp/ling/tokensregex/types/ValueFunctions.java:815-830 | SET_ANNOTATION_TAG returns its first argument; a record changes at most by new Tags in an empty Tags field and every Tags it can reach at most at the tag; on a record or a list (unchanged) it succeeds iff every Tags field read succeeds, and then every record's tag is bound to the third argument or null; a failing record is left unchanged; a failing list stops at its first bad element with that element's exception, every element before it tagged |
| Accessors.RemoveAnnotationTag | stanford-corenlp-full-2012-11-12/src/edu/stanford/nlp/ling/tokensregex/types/ValueFunctions.java:857-871 | REMOVE_ANNOTATION_TAG returns its first argument; no record changes and every Tags it can reach changes at most at the tag; it succeeds iff every Tags field read succeeds, and then every record's tag reads as null; a failing list stops at its first bad element with that element's exception, every element before it untagged |
| Accessors.TagList | stanford-corenlp-full-2012-11-12/src/edu/stanford/nlp/ling/tokensregex/types/ValueFunctions.java:774-780 | the list branch of GET_ANNOTATION_TAG: a new LIST Value of a new list holding each element's tag, iff every getTag succeeds; otherwise the exception of the first failing element |
| Accessors.GetAnnotationTag | stanford-corenlp-full-2012-11-12/src/edu/stanford/nlp/ling/tokensregex/types/ValueFunctions.java:767-785 | null for a null operand; a record's tag; or a new LIST Value with each list element's tag, iff every getTag succeeds, and otherwise the exception of the first failing element |
| Accessors.AnnotationKey | stanford-corenlp-full-2012-11-12/src/edu/stanford/nlp/ling/tokensregex/types/ValueFunctions.java:701-712 | a Class field is its own key; a String field resolves through the environment and otherwise throws "Cannot get annotation field" |
| Accessors.ElementField | stanford-corenlp-full-2012-11-12/src/edu/stanford/nlp/ling/tokensregex/types/ValueFunctions.java:733-734 | cm.get on a list element succeeds exactly for a record, giving its field; null throws NullPointerException and anything else ClassCastException |
| Accessors.SetFieldAll | stanford-corenlp-full-2012-11-12/src/edu/stanford/nlp/ling/tokensregex/types/ValueFunctions.java:727-729 | cm.set over a list succeeds iff every element is a record, and then every record's field holds the object; a failure carries the exception of the first non-record, and exactly the records before it have been assigned |
| Accessors.FieldAll | stanford-corenlp-full-2012-11-12/src/edu/stanford/nlp/ling/tokensregex/types/ValueFunctions.java:733-735 | cm.get over a list succeeds iff every element is a record, giving each record's field in order; a failure carries the exception of the first non-record |
| Accessors.Annotation | stanford-corenlp-full-2012-11-12/src/edu/stanford/nlp/ling/tokensregex/types/ValueFunctions.java:699-740 | an unresolvable key throws and changes nothing; a record is read (after the optional assignment) into a new Value typed by the key name; a list of records gives a new LIST Value of each record's field, which is the assigned object after a three-argument call; a list with a non-record fails with the first non-record's exception, a three-argument call having assigned exactly the records before it |
| Aggregates.ApplyEach | stanford-corenlp-full-2012-11-12/src/edu/stanford/nlp/ling/tokensregex/types/ValueFunctions.java:442-446 | the function applied to each element, as createValue(TYPE_LIST, elem), in list order |
| Aggregates.MapValues | stanford-corenlp-full-2012-11-12/src/edu/stanford/nlp/ling/tokensregex/types/ValueFunctions.java:437-448 | null for an absent list, NullPointerException for a null list or a null function on a non-empty list, a new empty LIST Value for a null function on an empty list; otherwise a new LIST Value of a new list of the function's results, in order |
| Aggregates.JavaApplyEach | stanford-corenlp-full-2012-11-12/src/edu/stanford/nlp/ling/tokensregex/types/ValueFunctions.java:460-462 | the java Function applied to each element in list order |
| Aggregates.MapFn | stanford-corenlp-full-2012-11-12/src/edu/stanford/nlp/ling/tokensregex/types/ValueFunctions.java:455-464 | as MAP_VALUES, with the java Function's raw results in an untyped Value (a new empty untyped Value for a null function on an empty list) |
| Aggregates.AggregateAsWritten | stanford-corenlp-full-2012-11-12/src/edu/stanford/nlp/ling/tokensregex/types/ValueFunctions.java:1217-1227 | AGGREGATE as written returns the initial value without further arguments and throws IndexOutOfBoundsException with any |
| Aggregates.FoldLeftSnoc | stanford-corenlp-full-2012-11-12/src/edu/stanford/nlp/ling/tokensregex/types/ValueFunctions.java:1221-1225 | folding one more element applies the function once more to the result so far |
| Aggregates.FoldLeftAppend | stanford-corenlp-full-2012-11-12/src/edu/stanford/nlp/ling/tokensregex/types/ValueFunctions.java:1221-1225 | folding a concatenation folds the second part over the result of the first |
| Aggregates.Aggregate | stanford-corenlp-full-2012-11-12/src/edu/stanford/nlp/ling/tokensregex/types/ValueFunctions.java:1217-1227 | the corrected AGGREGATE is the left fold of the function over the further arguments from the initial value |
| Aggregates.AggregateDiscrepancy | stanford-corenlp-full-2012-11-12/src/edu/stanford/nlp/ling/tokensregex/types/ValueFunctions.java:1220-1223 | without further arguments both forms agree; with one, the form as written throws where the fold gives f(init, x) |
| Registry.CheckArgs | stanford-corenlp-full-2012-11-12/src/edu/stanford/nlp/ling/tokensregex/types/ValueFunctions.java:605-618 | only a CompareFunction's check can throw, and only NullPointerException |
| Registry.Lookup | stanford-corenlp-full-2012-11-12/src/edu/stanford/nlp/ling/tokensregex/types/ValueFunctions.java:29 | `registeredFunctions.get`: the overloads registered under the name in registration order, none for an unregistered name |
| Registry.FunctionRegistry.constructor | stanford-corenlp-full-2012-11-12/src/edu/stanford/nlp/ling/tokensregex/types/ValueFunctions.java:1230-1231 | the registry starts empty |
| Registry.FunctionRegistry.Add | stanford-corenlp-full-2012-11-12/src/edu/stanford/nlp/ling/tokensregex/types/ValueFunctions.java:1233 | add appends the function to the name's collection, creating it when missing |
| Registry.FunctionRegistry.RegisterAll | stanford-corenlp-full-2012-11-12/src/edu/stanford/nlp/ling/tokensregex/types/ValueFunctions.java:1232-1304 | the static initializer, starting from an empty registry, builds exactly REGISTERED |
| Registry.FunctionRegistry.RegisterNumeric | stanford-corenlp-full-2012-11-12/src/edu/stanford/nlp/ling/tokensregex/types/ValueFunctions.java:1233-1238 | registers one numeric function under each of its names |
| Registry.FunctionRegistry.RegisterBoolean | stanford-corenlp-full-2012-11-12/src/edu/stanford/nlp/ling/tokensregex/types/ValueFunctions.java:1240-1242 | registers AND, OR and NOT |
| Registry.FunctionRegistry.RegisterString | stanford-corenlp-full-2012-11-12/src/edu/stanford/nlp/ling/tokensregex/types/ValueFunctions.java:1244-1248 | registers FORMAT, CONCAT, JOIN, LOWERCASE and UPPERCASE |
| Registry.FunctionRegistry.RegisterMap | stanford-corenlp-full-2012-11-12/src/edu/stanford/nlp/ling/tokensregex/types/ValueFunctions.java:1250-1251 | "Map" holds MAP_VALUES then MAP |
| Registry.FunctionRegistry.RegisterMatchReplace | stanford-corenlp-full-2012-11-12/src/edu/stanford/nlp/ling/tokensregex/types/ValueFunctions.java:1253-1256 | "Match" and "Replace" hold the token overload before the string one |
| Registry.FunctionRegistry.RegisterComparison | stanford-corenlp-full-2012-11-12/src/edu/stanford/nlp/ling/tokensregex/types/ValueFunctions.java:1258-1265 | "EQ" holds the numeric comparison before EQUALS and "NE" the numeric comparison before NOT_EQUALS |
| Registry.FunctionRegistry.RegisterCompareFunctions | stanford-corenlp-full-2012-11-12/src/edu/stanford/nlp/ling/tokensregex/types/ValueFunctions.java:1258-1263 | registers one numeric CompareFunction under each comparison name |
| Registry.FunctionRegistry.RegisterValueTags | stanford-corenlp-full-2012-11-12/src/edu/stanford/nlp/ling/tokensregex/types/ValueFunctions.java:1267-1269 | registers VALUE_TAG, GET_VALUE_TAG and REMOVE_VALUE_TAG |
| Registry.FunctionRegistry.RegisterAnnotationTags | stanford-corenlp-full-2012-11-12/src/edu/stanford/nlp/ling/tokensregex/types/ValueFunctions.java:1271-1273 | registers the three annotation-tag functions |
| Registry.FunctionRegistry.RegisterSplitAnnotateAggregate | stanford-corenlp-full-2012-11-12/src/edu/stanford/nlp/ling/tokensregex/types/ValueFunctions.java:1275-1277 | registers TOKEN_STRING_SPLIT, ANNOTATION_VALUE and AGGREGATE |
| Registry.FunctionRegistry.RegisterCreateRegex | stanford-corenlp-full-2012-11-12/src/edu/stanford/nlp/ling/tokensregex/types/ValueFunctions.java:1279 | registers CREATE_REGEX |
| Registry.FunctionRegistry.RegisterSelect | stanford-corenlp-full-2012-11-12/src/edu/stanford/nlp/ling/tokensregex/types/ValueFunctions.java:1281-1287 | registers the six "Select" overloads and LIST_VALUE under "ListSelect" |
| Registry.FunctionRegistry.RegisterSelectOverloads | stanford-corenlp-full-2012-11-12/src/edu/stanford/nlp/ling/tokensregex/types/ValueFunctions.java:1281-1286 | "Select" holds COMPOSITE_VALUE, MAP_VALUE, TAGS_VALUE, ANNOTATION_VALUE twice, OBJECT_FIELD |
| Registry.FunctionRegistry.RegisterKeys | stanford-corenlp-full-2012-11-12/src/edu/stanford/nlp/ling/tokensregex/types/ValueFunctions.java:1289-1290 | "Keys" holds MAP_KEYS then COMPOSITE_KEYS |
| Registry.FunctionRegistry.RegisterAccessors | stanford-corenlp-full-2012-11-12/src/edu/stanford/nlp/ling/tokensregex/types/ValueFunctions.java:1292-1303 | the name holds TAGS_VALUE, COMPOSITE_VALUE, MAP_VALUE, ANNOTATION_VALUE, OBJECT_FIELD, LIST_VALUE in that order |
| Registry.LookupFunctionObject | stanford-corenlp-full-2012-11-12/src/edu/stanford/nlp/ling/tokensregex/types/ValueFunctions.java:22-30 | a non-null environment binding is returned iff there is one; otherwise the registered collection for the name |
| Registry.FirstMatch | stanford-corenlp-full-2012-11-12/src/edu/stanford/nlp/ling/tokensregex/types/ValueFunctions.java:1230-1231 | the first candidate in registration order whose check accepts, with every earlier one declining; none iff all decline; a throwing check ends the search with its exception |
| Registry.Resolve | stanford-corenlp-full-2012-11-12/src/edu/stanford/nlp/ling/tokensregex/types/ValueFunctions.java:22-30 | an environment binding wins; no registered candidate is UnknownFunction; all declining is NoMatchingOverload; otherwise the first accepting candidate |
| Registry.EnvShadowsRegistry | stanford-corenlp-full-2012-11-12/src/edu/stanford/nlp/ling/tokensregex/types/ValueFunctions.java:23-27 | a name bound in the environment resolves to the bound object whatever is registered |
| Registry.NoAcceptingCandidate | stanford-corenlp-full-2012-11-12/src/edu/stanford/nlp/ling/tokensregex/types/ValueFunctions.java:29 | a registered name whose candidates all decline fails with NoMatchingOverload |
| Registry.RegisteredEq | stanford-corenlp-full-2012-11-12/src/edu/stanford/nlp/ling/tokensregex/types/ValueFunctions.java:1262-1264 | "EQ" holds the numeric comparison, then EQUALS |
| Registry.RegisteredSelect | stanford-corenlp-full-2012-11-12/src/edu/stanford/nlp/ling/tokensregex/types/ValueFunctions.java:1281-1286 | "Select" holds ANNOTATION_VALUE at positions 3 and 4 |
| Registry.RegisteredKeys | stanford-corenlp-full-2012-11-12/src/edu/stanford/nlp/ling/tokensregex/types/ValueFunctions.java:1289-1290 | "Keys" holds MAP_KEYS before COMPOSITE_KEYS |
| Registry.RegisteredGet | stanford-corenlp-full-2012-11-12/src/edu/stanford/nlp/ling/tokensregex/types/ValueFunctions.java:1298-1303 | "Get" holds the six accessors with TAGS_VALUE first |
| Registry.CompareCheckArgs | stanford-corenlp-full-2012-11-12/src/edu/stanford/nlp/ling/tokensregex/types/ValueFunctions.java:1262 | a registered comparison's check is CompareFunction.checkArgs with Number as the class |
| Registry.EqOnNumbersCompares | stanford-corenlp-full-2012-11-12/src/edu/stanford/nlp/ling/tokensregex/types/ValueFunctions.java:1262-1264 | EQ on two numbers resolves to the numeric comparison |
| Registry.EqOtherwiseEquals | stanford-corenlp-full-2012-11-12/src/edu/stanford/nlp/ling/tokensregex/types/ValueFunctions.java:1262-1264 | EQ resolves to EQUALS when an argument is absent or holds a non-null non-number |
| Registry.EqOnNullPayloadThrows | stanford-corenlp-full-2012-11-12/src/edu/stanford/nlp/ling/tokensregex/types/ValueFunctions.java:610 | EQ with a null first payload throws NullPointerException in the comparison's check, although EQUALS would accept |
| Registry.SelectDuplicateUnreachable | stanford-corenlp-full-2012-11-12/src/edu/stanford/nlp/ling/tokensregex/types/ValueFunctions.java:1284-1285 | the second ANNOTATION_VALUE under "Select" is never the first accepting candidate |
| Registry.KeysNeverCompositeKeys | stanford-corenlp-full-2012-11-12/src/edu/stanford/nlp/ling/tokensregex/types/ValueFunctions.java:1289-1290 | "Keys" never resolves to COMPOSITE_KEYS, because a CompositeValue is a Map and MAP_KEYS comes first |
| Registry.GetOnNullPicksCompositeValue | stanford-corenlp-full-2012-11-12/src/edu/stanford/nlp/ling/tokensregex/types/ValueFunctions.java:1298-1299 | "Get" with a null first payload resolves to COMPOSITE_VALUE |

## Left out

- Floating point: arithmetic and comparison on a Double operand give `FloatingPointNotModelled`. Only the integer path (Long, Integer, Short, per `isInteger`) is modelled.
- Primitives.StringApply: the case mappings of UPPERCASE and LOWERCASE are parameters. `toString` of a non-String payload is the parameter `show`. Unicode case mapping is not modelled.
- Aggregates.MapValues, Aggregates.MapFn, Aggregates.Aggregate: applying the argument function is a pure, total parameter. Its exceptions and side effects are not modelled.
- Accessors.MapKeys, Accessors.CompositeKeys: the order of a HashMap's key set is not modelled. The keys come in an unspecified order, each exactly once.
- Accessors.ListValue, Accessors.MapValue, Accessors.MapKeys, Accessors.CompositeKeys: `Expressions.asValue` and `createValue` are modelled as a new Value around the object. Class Expressions is not part of this model.
- Accessors.MapValue, Accessors.MapKeys, Accessors.MapWrite, Accessors.MapRead: map keys compare as model values. Numbers, booleans and strings compare by value, as their equals() does. Lists, maps and records compare by reference. java.util.Map compares List and Map keys with equals(), element by element, and that is not modelled.
- Accessors.SetTagAll, Accessors.RemoveTagAll, Accessors.SetAnnotationTag, Accessors.RemoveAnnotationTag: after a failure, the contract names the failing element and what the elements before it hold. It does not say that the records after it keep their tag. A record or a Tags can occur both before and after the failing element, which makes that statement longer than the proof is worth. The frame still bounds every change: a record changes at most by new Tags, and a Tags changes at most at the tag.
- Accessors.CompositeGet: `CompositeValue.getValue` is modelled as a read of the attribute map. Class Expressions is not part of this model.
- Primitives.Join, Primitives.Render: StringUtils is not part of this model. Its `join` is taken to write each element with String.valueOf, so null as "null", with the glue between consecutive elements.
- Primitives.CompareApply, Primitives.EqualsApply, Primitives.NotEqualsApply, Primitives.BooleanApply: these return the boolean (or the Content) rather than the shared `Expressions.TRUE` and `Expressions.FALSE` Values.
- The `apply` of FORMAT, CREATE_REGEX, TOKENS_MATCH, TOKENS_REPLACE, STRING_MATCH, STRING_REPLACE, TOKEN_STRING_SPLIT and OBJECT_FIELD: they delegate to String.format, regex and pattern matching, and reflection, none of which is part of this model. Their checks are modelled.
- The display names, `toString`, signatures and parameter descriptions of the functions, including NOT_EQUALS's display name "EQUALS": these do not change any result.
- The `apply` guards that re-check the argument count, and the "Type mismatch" branches: every `apply` requires its own check, which excludes them. The evaluator applies only a candidate that accepted.
- The Tags class is modelled as a map from tag name to Value. Its source is not part of this model.
- Registry.FirstMatch, Registry.Resolve: the evaluator that resolves a call is not part of this model, so resolution is written as an explicit helper over the registered table.
- AnnotationPipeline is not part of this model: it is not among the value functions.

## Findings

| source | as written | input that shows it | evidently intended | confidence | as-written member | corrected member |
|---|---|---|---|---|---|---|
| stanford-corenlp-full-2012-11-12/src/edu/stanford/nlp/ling/tokensregex/types/ValueFunctions.java:1220-1223 | `new ArrayList(2)` only reserves capacity, so `args.set(0, res)` throws IndexOutOfBoundsException on the first element | `Aggregate(Add, 10, 1)`: a function, an initial value and one element | a left fold, `Add(10, 1)` = 11; without elements, the initial value | not executed | Aggregates.AggregateAsWritten, Aggregates.AggregateDiscrepancy | Aggregates.Aggregate |
