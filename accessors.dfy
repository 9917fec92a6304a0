/**
 * The accessor functions: selecting and assigning list elements, map
 * entries, CompositeValue attributes, Tags entries, the tags of a Value,
 * the tags of a record (or of every record of a list), and record fields.
 *
 * Each `apply` is a method that requires its function's own `checkArgs`
 * (the evaluator applies only a candidate that accepted) and states the new
 * state of everything it may change. What a read returns after a write is
 * stated both in the method's contract and, for the pure read and write
 * functions, in lemmas.
 */
module Accessors {
  import opened Wrappers
  import opened JavaInts
  import opened Values
  import opened ArgChecks

  /** Expressions.asValue / createValue: a new Value around a raw object. */
  method Box(typeName: Option<string>, o: Obj) returns (v: Value)
    ensures fresh(v) && v.typeName == typeName && v.payload == o
    ensures !v.isComposite && v.tags == null
  {
    v := new Value(typeName, o);
  }

  /** An absent operand or a null payload: the accessors that allow null return null for it. */
  predicate NullOperand(v: Value?) {
    v == null || v.payload.Null?
  }

  // ---------------------------------------------------------------- LIST_VALUE

  /** A negative list index counts back from the end of the list. */
  function ResolveIndex(size: nat, index: int): (k: int)
    ensures index >= 0 ==> k == index
    ensures index < 0 ==> k == size + index
  {
    if index < 0 then size + index else index
  }

  /** The resolved index is in range exactly for `-size <= index < size`. */
  lemma ResolveIndexInRange(size: nat, index: int)
    ensures 0 <= ResolveIndex(size, index) < size <==> -(size as int) <= index < size
  {
  }

  /** The list LIST_VALUE may assign into. */
  function ListOperand(args: seq<Value?>): set<object>
    requires |args| >= 1
  {
    if args[0] != null && args[0].payload.ListRef? then {args[0].payload.list} else {}
  }

  /** LIST_VALUE: select the element at the (resolved) index, first assigning
      the third argument's payload to it when there is one. */
  method ListValue(args: seq<Value?>) returns (r: Result<Value?, Error>)
    requires ListValueAccepts(args)
    modifies ListOperand(args)
    ensures NullOperand(args[0]) ==> r == Ok(null)
    ensures !NullOperand(args[0]) ==>
      var list := args[0].payload.list;
      var k := ResolveIndex(|old(list.elems)|, args[1].payload.n32 as int);
      && |list.elems| == |old(list.elems)|
      && (!(0 <= k < |list.elems|) ==> r == Err(IndexOutOfBounds) && list.elems == old(list.elems))
      && (0 <= k < |list.elems| ==>
            && list.elems == (if |args| == 3 then old(list.elems)[k := PayloadOrNull(args[2])] else old(list.elems))
            && r.Ok? && r.value != null && fresh(r.value)
            && r.value.typeName == None && r.value.payload == list.elems[k])
    ensures |args| == 3 && r.Ok? && r.value != null ==> r.value.payload == PayloadOrNull(args[2])
  {
    if NullOperand(args[0]) {
      return Ok(null);
    }
    var list := args[0].payload.list;
    var k := ResolveIndex(|list.elems|, args[1].payload.n32 as int);
    if !(0 <= k < |list.elems|) {
      return Err(IndexOutOfBounds);
    }
    if |args| == 3 {
      list.elems := list.elems[k := PayloadOrNull(args[2])];
    }
    var v := Box(None, list.elems[k]);
    r := Ok(v);
  }

  // ---------------------------------------------------------------- MAP_VALUE

  /** MAP_VALUE's assignment: put the payload, or remove the key when the value is absent. */
  function MapWrite(m: map<Obj, Obj>, key: Obj, v: Value?): (m': map<Obj, Obj>)
    ensures m' - {key} == m - {key}
    ensures v == null ==> key !in m'
  {
    if v != null then m[key := v.payload] else m - {key}
  }

  /** MAP_VALUE's selection: Map.get, and, for a two-argument call whose
      String key has no entry, the entry of the annotation key that the
      environment resolves the string to. */
  function MapRead(env: Env, m: map<Obj, Obj>, key: Obj, twoArgs: bool): (r: Obj)
    ensures !(twoArgs && key.Str?) || !MapGet(m, key).Null? ==> r == MapGet(m, key)
    ensures r != MapGet(m, key) ==>
      && twoArgs && key.Str? && LookupAnnotationKey(env, key.str).Some?
      && r == MapGet(m, KeyRef(LookupAnnotationKey(env, key.str).value))
  {
    var o := MapGet(m, key);
    if twoArgs && o.Null? && key.Str? then
      match LookupAnnotationKey(env, key.str)
      case Some(k) => MapGet(m, KeyRef(k))
      case None => o
    else o
  }

  /** A three-argument call reads back what it wrote. */
  lemma MapWriteThenRead(env: Env, m: map<Obj, Obj>, key: Obj, v: Value?)
    ensures MapRead(env, MapWrite(m, key, v), key, false) == PayloadOrNull(v)
  {
  }

  /** After a (String) key is removed, selecting it falls back on the resolved
      annotation key, whose entry the removal did not touch. */
  lemma RemovedStringKeyFallsBack(env: Env, m: map<Obj, Obj>, s: string)
    ensures MapRead(env, MapWrite(m, Str(s), null), Str(s), true) ==
      match LookupAnnotationKey(env, s)
      case Some(k) => MapGet(m, KeyRef(k))
      case None => Null
  {
    var m' := MapWrite(m, Str(s), null);
    match LookupAnnotationKey(env, s)
    case Some(k) =>
      assert KeyRef(k) in m' - {Str(s)} <==> KeyRef(k) in m - {Str(s)};
    case None =>
  }

  /** A key with an entry is read directly, whatever the environment says. */
  lemma MapReadPresentKey(env: Env, m: map<Obj, Obj>, key: Obj, twoArgs: bool)
    requires key in m && !m[key].Null?
    ensures MapRead(env, m, key, twoArgs) == m[key]
  {
  }

  /** The map MAP_VALUE or COMPOSITE_VALUE may assign into. */
  function MapOperand(args: seq<Value?>): set<object>
    requires |args| >= 1
  {
    if args[0] != null && args[0].payload.MapRef? then {args[0].payload.jmap} else {}
  }

  /** MAP_VALUE: select an entry, first putting (or, for an absent value, removing) it. */
  method MapValue(env: Env, args: seq<Value?>) returns (r: Value?)
    requires MapValueAccepts(args)
    modifies MapOperand(args)
    ensures NullOperand(args[0]) ==> r == null
    ensures !NullOperand(args[0]) ==>
      var m := args[0].payload.jmap;
      var key := args[1].payload;
      && m.entries == (if |args| == 3 then MapWrite(old(m.entries), key, args[2]) else old(m.entries))
      && r != null && fresh(r) && r.typeName == None
      && r.payload == MapRead(env, m.entries, key, |args| == 2)
  {
    if NullOperand(args[0]) {
      return null;
    }
    var m := args[0].payload.jmap;
    var key := args[1].payload;
    if |args| == 3 {
      m.entries := MapWrite(m.entries, key, args[2]);
    }
    r := Box(None, MapRead(env, m.entries, key, |args| == 2));
  }

  // ---------------------------------------------------------------- MAP_KEYS / COMPOSITE_KEYS

  /** The elements of a finite set, each exactly once, in an unspecified
      order (the order of a HashMap's key set). */
  method Enumerate<T(==)>(s: set<T>) returns (xs: seq<T>)
    ensures |xs| == |s|
    ensures forall x :: x in xs <==> x in s
    ensures forall i, j :: 0 <= i < j < |xs| ==> xs[i] != xs[j]
  {
    xs := [];
    var rest := s;
    while rest != {}
      invariant forall x :: x in s <==> x in rest || x in xs
      invariant forall x :: x in rest ==> x !in xs
      invariant |xs| + |rest| == |s|
      invariant forall i, j :: 0 <= i < j < |xs| ==> xs[i] != xs[j]
      decreases |rest|
    {
      var x :| x in rest;
      xs := xs + [x];
      rest := rest - {x};
    }
  }

  /** MAP_KEYS: a new list of the map's keys. */
  method MapKeys(args: seq<Value?>) returns (r: Value?)
    requires MapKeysAccepts(args)
    ensures NullOperand(args[0]) ==> r == null
    ensures !NullOperand(args[0]) ==>
      var m := args[0].payload.jmap;
      && r != null && fresh(r) && r.typeName == Some(TYPE_LIST)
      && r.payload.ListRef? && fresh(r.payload.list)
      && |r.payload.list.elems| == |m.entries.Keys|
      && (forall k :: k in r.payload.list.elems <==> k in m.entries)
      && (forall i, j :: 0 <= i < j < |r.payload.list.elems| ==> r.payload.list.elems[i] != r.payload.list.elems[j])
  {
    if NullOperand(args[0]) {
      return null;
    }
    var keys := Enumerate(args[0].payload.jmap.entries.Keys);
    var list := new JList(keys);
    r := Box(Some(TYPE_LIST), ListRef(list));
  }

  /** COMPOSITE_KEYS: a new list of a CompositeValue's attribute names. */
  method CompositeKeys(args: seq<Value?>) returns (r: Value?)
    requires CompositeKeysAccepts(args) && CompositeShaped(args[0])
    ensures NullOperand(args[0]) ==> r == null
    ensures !NullOperand(args[0]) ==>
      var m := args[0].payload.jmap;
      && r != null && fresh(r) && r.typeName == Some(TYPE_LIST)
      && r.payload.ListRef? && fresh(r.payload.list)
      && |r.payload.list.elems| == |m.entries.Keys|
      && (forall k :: k in r.payload.list.elems <==> k in m.entries)
      && (forall i, j :: 0 <= i < j < |r.payload.list.elems| ==> r.payload.list.elems[i] != r.payload.list.elems[j])
  {
    if NullOperand(args[0]) {
      return null;
    }
    var keys := Enumerate(args[0].payload.jmap.entries.Keys);
    var list := new JList(keys);
    r := Box(Some(TYPE_LIST), ListRef(list));
  }

  // ---------------------------------------------------------------- COMPOSITE_VALUE

  /** CompositeValue.getValue: the Value stored under the attribute name, or
      null; an attribute holding a raw (non-Value) object fails the cast. */
  function CompositeGet(m: map<Obj, Obj>, field: string): (r: Result<Value?, Error>)
    ensures r.Ok? && r.value != null ==> MapGet(m, Str(field)) == ValueRef(r.value)
    ensures r == Ok(null) <==> MapGet(m, Str(field)).Null?
    ensures MapGet(m, Str(field)).ValueRef? ==> r == Ok(MapGet(m, Str(field)).value)
    ensures !MapGet(m, Str(field)).Null? && !MapGet(m, Str(field)).ValueRef? ==> r == Err(ClassCast)
  {
    match MapGet(m, Str(field))
    case Null => Ok(null)
    case ValueRef(v) => Ok(v)
    case _ => Err(ClassCast)
  }

  /** An attribute reads back the Value last stored under it. */
  lemma CompositeSetThenGet(m: map<Obj, Obj>, field: string, v: Value?)
    ensures CompositeGet(m[Str(field) := AsObj(v)], field) == Ok(v)
  {
  }

  /** COMPOSITE_VALUE: select an attribute of a CompositeValue, first storing
      the third argument under it when there is one. */
  method CompositeValue(args: seq<Value?>) returns (r: Result<Value?, Error>)
    requires CompositeValueAccepts(args) && CompositeShaped(args[0])
    modifies MapOperand(args)
    ensures NullOperand(args[0]) ==> r == Ok(null)
    ensures !NullOperand(args[0]) ==>
      var m := args[0].payload.jmap;
      var field := args[1].payload.str;
      && m.entries == (if |args| == 3 then old(m.entries)[Str(field) := AsObj(args[2])] else old(m.entries))
      && r == CompositeGet(m.entries, field)
    ensures |args| == 3 && !NullOperand(args[0]) ==> r == Ok(args[2])
  {
    if NullOperand(args[0]) {
      return Ok(null);
    }
    var m := args[0].payload.jmap;
    var field := args[1].payload.str;
    if |args| == 3 {
      m.entries := m.entries[Str(field) := AsObj(args[2])];
    }
    r := CompositeGet(m.entries, field);
  }

  // ---------------------------------------------------------------- TAGS_VALUE

  /** TAGS_VALUE: read a tag of a Tags object, first binding it to the third argument when there is one. */
  method TagsValue(args: seq<Value?>) returns (r: Value?)
    requires TagsValueAccepts(args)
    modifies args[0].payload.tags
    ensures
      var t := args[0].payload.tags;
      var tag := args[1].payload.str;
      && t.entries == (if |args| == 3 then old(t.entries)[tag := args[2]] else old(t.entries))
      && r == TagGet(t.entries, tag)
    ensures |args| == 3 ==> r == args[2]
  {
    var t := args[0].payload.tags;
    var tag := args[1].payload.str;
    if |args| == 3 {
      t.entries := t.entries[tag := args[2]];
    }
    r := TagGet(t.entries, tag);
  }

  // ---------------------------------------------------------------- value tags

  /** GET_VALUE_TAG: the Value a tag of `v` is bound to; null when `v` has no Tags or no such tag. */
  function ValueTag(v: Value, tag: string): (r: Value?)
    reads v, v.tags
    ensures v.tags == null ==> r == null
    ensures v.tags != null && tag in v.tags.entries ==> r == v.tags.entries[tag]
    ensures r != null ==> v.tags != null && tag in v.tags.entries && v.tags.entries[tag] == r
  {
    if v.tags == null then null else TagGet(v.tags.entries, tag)
  }

  /** GET_VALUE_TAG's apply. */
  function GetValueTag(args: seq<Value?>): (r: Value?)
    requires ValueTagAccepts(args)
    reads args[0], args[0].tags
    ensures args[0].tags == null ==> r == null
    ensures args[0].tags != null && args[1].payload.str !in args[0].tags.entries ==> r == null
    ensures args[0].tags != null && args[1].payload.str in args[0].tags.entries ==>
      r == args[0].tags.entries[args[1].payload.str]
  {
    ValueTag(args[0], args[1].payload.str)
  }

  /** VALUE_TAG: bind a tag of the first argument (creating its Tags on first
      use) to the third argument, or to null; returns the first argument. */
  method SetValueTag(args: seq<Value?>) returns (r: Value)
    requires SetValueTagAccepts(args)
    modifies args[0], args[0].tags
    ensures r == args[0] && r.tags != null
    ensures
      var tag := args[1].payload.str;
      var tv := if |args| == 3 then args[2] else null;
      && (old(r.tags) != null ==> r.tags == old(r.tags) && r.tags.entries == old(r.tags.entries)[tag := tv])
      && (old(r.tags) == null ==> fresh(r.tags) && r.tags.entries == map[tag := tv])
      && ValueTag(r, tag) == tv
  {
    r := args[0];
    if r.tags == null {
      r.tags := new Tags();
    }
    var tag := args[1].payload.str;
    var tv := if |args| == 3 then args[2] else null;
    r.tags.entries := r.tags.entries[tag := tv];
  }

  /** REMOVE_VALUE_TAG: unbind a tag of the first argument (creating its Tags
      on first use); returns the first argument. */
  method RemoveValueTag(args: seq<Value?>) returns (r: Value)
    requires ValueTagAccepts(args)
    modifies args[0], args[0].tags
    ensures r == args[0] && r.tags != null
    ensures
      var tag := args[1].payload.str;
      && (old(r.tags) != null ==> r.tags == old(r.tags) && r.tags.entries == old(r.tags.entries) - {tag})
      && (old(r.tags) == null ==> fresh(r.tags) && r.tags.entries == map[])
      && ValueTag(r, tag) == null
  {
    r := args[0];
    if r.tags == null {
      r.tags := new Tags();
    }
    var tag := args[1].payload.str;
    r.tags.entries := r.tags.entries - {tag};
  }

  // ---------------------------------------------------------------- record tags

  /** The Tags object a record holds in its Tags field, if it holds one. */
  function HeldTags(rec: Record): set<object>
    reads rec
  {
    match FieldGet(rec.fields, TAGS_KEY)
    case TagsRef(t) => {t}
    case _ => {}
  }

  /** `cm.get(TagsAnnotation.class)` for one element of a record list: a null
      element fails the dereference, anything but a record the cast to
      CoreMap, and a Tags field holding anything but a Tags the cast to Tags. */
  function TagsField(o: Obj): (r: Result<Option<Tags>, Error>)
    reads if o.RecordRef? then {o.rec} else {}
    ensures r.Ok? ==> o.RecordRef?
    ensures o.Null? ==> r == Err(NullPointer)
  {
    match o
    case Null => Err(NullPointer)
    case RecordRef(rec) =>
      (match FieldGet(rec.fields, TAGS_KEY)
       case Null => Ok(None)
       case TagsRef(t) => Ok(Some(t))
       case _ => Err(ClassCast))
    case _ => Err(ClassCast)
  }

  /** The objects the record-tag functions may touch for one element: the record and its Tags. */
  function Footprint(o: Obj): set<object>
    reads if o.RecordRef? then {o.rec} else {}
  {
    if o.RecordRef? then {o.rec} + HeldTags(o.rec) else {}
  }

  /** The footprints of all elements of a list. */
  function ElemsFootprint(elems: seq<Obj>): set<object>
    reads set i | 0 <= i < |elems| && elems[i].RecordRef? :: elems[i].rec
  {
    set i, x | 0 <= i < |elems| && x in Footprint(elems[i]) :: x
  }

  /** The element's record and Tags are in the list's footprint. */
  lemma ElemsFootprintCovers(elems: seq<Obj>)
    ensures forall j :: 0 <= j < |elems| && elems[j].RecordRef? ==>
      elems[j].rec in ElemsFootprint(elems) && HeldTags(elems[j].rec) <= ElemsFootprint(elems)
    ensures Covers(RecordsOf(elems), ElemsFootprint(elems))
  {
    forall j | 0 <= j < |elems| && elems[j].RecordRef?
      ensures elems[j].rec in ElemsFootprint(elems) && HeldTags(elems[j].rec) <= ElemsFootprint(elems)
    {
      assert elems[j].rec in Footprint(elems[j]);
      assert HeldTags(elems[j].rec) <= Footprint(elems[j]);
    }
  }

  /** A list is never among the records and Tags of its elements. */
  lemma ListOutsideFootprint(list: JList, elems: seq<Obj>)
    ensures list !in ElemsFootprint(elems)
  {
  }

  /** getTag: the Value a tag of an element is bound to (null when the record has no Tags). */
  function ElementTag(o: Obj, tag: string): (r: Result<Value?, Error>)
    reads Footprint(o)
    ensures r.Ok? <==> TagsField(o).Ok?
    ensures r.Err? ==> r.error == TagsField(o).error
    ensures TagsField(o) == Ok(None) ==> r == Ok(null)
  {
    match TagsField(o)
    case Err(e) => Err(e)
    case Ok(None) => Ok(null)
    case Ok(Some(t)) => Ok(TagGet(t.entries, tag))
  }

  /** A record's fields after setTag: unchanged, or a new Tags put in a Tags field that was empty. */
  ghost predicate TagsCreated(rec: Record, old_fields: map<Key, Obj>)
    reads rec
  {
    || rec.fields == old_fields
    || (&& FieldGet(old_fields, TAGS_KEY).Null?
        && FieldGet(rec.fields, TAGS_KEY).TagsRef?
        && rec.fields == old_fields[TAGS_KEY := FieldGet(rec.fields, TAGS_KEY)])
  }

  /** setTag on one record: bind the tag in the record's Tags, creating and storing them first when absent. */
  method SetTag(rec: Record, tag: string, tv: Value?) returns (r: Result<(), Error>)
    modifies rec, HeldTags(rec)
    ensures r.Ok? <==> old(TagsField(RecordRef(rec))).Ok?
    ensures r.Err? ==> r == Err(ClassCast) && rec.fields == old(rec.fields)
    ensures old(FieldGet(rec.fields, TAGS_KEY)).TagsRef? ==>
      var t := old(FieldGet(rec.fields, TAGS_KEY)).tags;
      rec.fields == old(rec.fields) && t.entries == old(t.entries)[tag := tv]
    ensures old(FieldGet(rec.fields, TAGS_KEY)).Null? ==>
      && FieldGet(rec.fields, TAGS_KEY).TagsRef?
      && fresh(FieldGet(rec.fields, TAGS_KEY).tags)
      && rec.fields == old(rec.fields)[TAGS_KEY := FieldGet(rec.fields, TAGS_KEY)]
      && FieldGet(rec.fields, TAGS_KEY).tags.entries == map[tag := tv]
    ensures r.Ok? ==> ElementTag(RecordRef(rec), tag) == Ok(tv)
  {
    match FieldGet(rec.fields, TAGS_KEY)
    case Null =>
      var t := new Tags();
      rec.fields := rec.fields[TAGS_KEY := TagsRef(t)];
      t.entries := t.entries[tag := tv];
      r := Ok(());
    case TagsRef(t) =>
      t.entries := t.entries[tag := tv];
      r := Ok(());
    case _ =>
      r := Err(ClassCast);
  }

  /** removeTag on one record: unbind the tag when the record has Tags. */
  method RemoveTag(rec: Record, tag: string) returns (r: Result<(), Error>)
    modifies HeldTags(rec)
    ensures r.Ok? <==> old(TagsField(RecordRef(rec))).Ok?
    ensures r.Err? ==> r == Err(ClassCast)
    ensures old(FieldGet(rec.fields, TAGS_KEY)).TagsRef? ==>
      var t := old(FieldGet(rec.fields, TAGS_KEY)).tags;
      t.entries == old(t.entries) - {tag}
    ensures r.Ok? ==> ElementTag(RecordRef(rec), tag) == Ok(null)
  {
    match FieldGet(rec.fields, TAGS_KEY)
    case Null =>
      r := Ok(());
    case TagsRef(t) =>
      t.entries := t.entries - {tag};
      r := Ok(());
    case _ =>
      r := Err(ClassCast);
  }

  /** Two tag tables that agree on every tag but `tag`. */
  ghost predicate SameOutside(a: map<string, Value?>, b: map<string, Value?>, tag: string) {
    a - {tag} == b - {tag}
  }

  /** Binding or unbinding `tag` keeps a table the same outside `tag`. */
  lemma SameOutsideStep(a: map<string, Value?>, tag: string, tv: Value?)
    ensures SameOutside(a[tag := tv], a, tag) && SameOutside(a - {tag}, a, tag)
  {
    assert a[tag := tv] - {tag} == a - {tag};
    assert (a - {tag}) - {tag} == a - {tag};
  }

  /** `(CoreMap) elem` for each element of a list: its record, or null for an
      element that is not one (null, or an object of another class). */
  function RecordsOf(elems: seq<Obj>): (recs: seq<Record?>)
    ensures |recs| == |elems|
    ensures forall j :: 0 <= j < |elems| ==> (recs[j] != null <==> elems[j].RecordRef?)
    ensures forall j :: 0 <= j < |elems| && elems[j].RecordRef? ==> recs[j] == elems[j].rec
  {
    seq(|elems|, j requires 0 <= j < |elems| => if elems[j].RecordRef? then elems[j].rec else null)
  }

  /** A Tags field that `cm.get(TagsAnnotation.class)` reads without a ClassCastException: empty or holding Tags. */
  predicate TagsFieldOk(fields: map<Key, Obj>) {
    FieldGet(fields, TAGS_KEY).Null? || FieldGet(fields, TAGS_KEY).TagsRef?
  }

  /** The objects of `fp` include every record of the list and the Tags it holds. */
  ghost predicate Covers(recs: seq<Record?>, fp: set<object>)
    reads set j | 0 <= j < |recs| && recs[j] != null :: recs[j]
  {
    forall j :: 0 <= j < |recs| && recs[j] != null ==> recs[j] in fp && HeldTags(recs[j]) <= fp
  }

  /** The record's Tags bind `tag` to `tv`. */
  ghost predicate TagBound(rec: Record?, tag: string, tv: Value?)
    reads rec, if rec != null then HeldTags(rec) else {}
  {
    && rec != null
    && FieldGet(rec.fields, TAGS_KEY).TagsRef?
    && TagGet(FieldGet(rec.fields, TAGS_KEY).tags.entries, tag) == tv
  }

  /** One pass of the loop of SET_ANNOTATION_TAG, on the record of element `i`:
      it gets the tag and the records before it keep theirs; only this record
      and its Tags change, the record at most by a new Tags. */
  method SetTagStep(rec: Record, ghost recs: seq<Record?>, i: nat, tag: string, tv: Value?)
    requires i < |recs| && recs[i] == rec
    requires TagsFieldOk(rec.fields)
    requires forall j :: 0 <= j < i ==> TagBound(recs[j], tag, tv)
    modifies rec, HeldTags(rec)
    ensures forall j :: 0 <= j <= i ==> TagBound(recs[j], tag, tv)
    ensures TagsCreated(rec, old(rec.fields))
    ensures HeldTags(rec) == old(HeldTags(rec)) || fresh(HeldTags(rec))
    ensures forall t: Tags :: old(allocated(t)) ==> SameOutside(t.entries, old(t.entries), tag)
  {
    var f := FieldGet(rec.fields, TAGS_KEY);
    ghost var before := if f.TagsRef? then f.tags.entries else map[];
    SameOutsideStep(before, tag, tv);
    var _ := SetTag(rec, tag, tv);
    forall j | 0 <= j < i
      ensures TagBound(recs[j], tag, tv)
    {
      var rj := recs[j];
      if rj != rec {
        var g := FieldGet(rj.fields, TAGS_KEY);
        if g != f {
          assert g.tags.entries == old(g.tags.entries);
        }
      }
    }
  }

  /** The number of records the loop got through: all of them, or those before the failing one. */
  function Reached(failed: Option<nat>, n: nat): nat {
    if failed.Some? then failed.value else n
  }

  /** The for-each loop of SET_ANNOTATION_TAG over the records of a list: setTag
      on each in order, up to the first element that is not a record or whose
      Tags field holds something else, whose index it returns. The records
      before it are tagged; a record changes at most by a new Tags in an empty
      Tags field, and a Tags at most at `tag`. */
  method SetTagEach(recs: seq<Record?>, tag: string, tv: Value?, ghost fp: set<object>) returns (failed: Option<nat>)
    requires Covers(recs, fp)
    modifies fp
    ensures Reached(failed, |recs|) <= |recs|
    ensures forall j :: 0 <= j < Reached(failed, |recs|) ==>
      recs[j] != null && old(TagsFieldOk(recs[j].fields)) && TagBound(recs[j], tag, tv)
    ensures failed.Some? ==>
      failed.value < |recs| && (recs[failed.value] == null || !old(TagsFieldOk(recs[failed.value].fields)))
    ensures forall j :: 0 <= j < |recs| && recs[j] != null ==> TagsCreated(recs[j], old(recs[j].fields))
    ensures forall t: Tags :: t in fp ==> SameOutside(t.entries, old(t.entries), tag)
  {
    var i := 0;
    while i < |recs|
      invariant 0 <= i <= |recs|
      invariant forall j :: 0 <= j < i ==> recs[j] != null && old(TagsFieldOk(recs[j].fields)) && TagBound(recs[j], tag, tv)
      invariant forall j :: 0 <= j < |recs| && recs[j] != null ==> TagsCreated(recs[j], old(recs[j].fields))
      invariant forall j :: 0 <= j < |recs| && recs[j] != null ==> HeldTags(recs[j]) <= fp || fresh(HeldTags(recs[j]))
      invariant forall t: Tags :: t in fp ==> SameOutside(t.entries, old(t.entries), tag)
    {
      var rec := recs[i];
      if rec == null || !TagsFieldOk(rec.fields) {
        return Some(i);
      }
      label Step:
      SetTagStep(rec, recs, i, tag, tv);
      forall j | 0 <= j < |recs| && recs[j] != null
        ensures TagsCreated(recs[j], old(recs[j].fields))
        ensures HeldTags(recs[j]) <= fp || fresh(HeldTags(recs[j]))
      {
        if recs[j] != rec {
          assert recs[j].fields == old@Step(recs[j].fields);
        }
      }
      forall t: Tags | t in fp
        ensures SameOutside(t.entries, old(t.entries), tag)
      {
        assert SameOutside(t.entries, old@Step(t.entries), tag);
      }
      i := i + 1;
    }
    failed := None;
  }

  /** setTag on every element of a list, in order, stopping at the first
      element that is not a record with an empty or Tags-valued Tags field. */
  method SetTagAll(elems: seq<Obj>, tag: string, tv: Value?, ghost fp: set<object>) returns (r: Result<(), Error>)
    requires Covers(RecordsOf(elems), fp)
    modifies fp
    ensures r.Ok? <==> forall i :: 0 <= i < |elems| ==> old(TagsField(elems[i])).Ok?
    ensures r.Err? ==> exists k ::
      && 0 <= k < |elems|
      && (forall j :: 0 <= j < k ==> old(TagsField(elems[j])).Ok? && ElementTag(elems[j], tag) == Ok(tv))
      && old(TagsField(elems[k])) == Err(r.error)
    ensures r.Ok? ==> forall i :: 0 <= i < |elems| ==> ElementTag(elems[i], tag) == Ok(tv)
    ensures forall i :: 0 <= i < |elems| && elems[i].RecordRef? ==>
      TagsCreated(elems[i].rec, old(elems[i].rec.fields))
    ensures forall t: Tags :: t in fp ==> SameOutside(t.entries, old(t.entries), tag)
  {
    var recs := RecordsOf(elems);
    var failed := SetTagEach(recs, tag, tv, fp);
    if failed.None? {
      r := Ok(());
      forall i | 0 <= i < |elems|
        ensures old(TagsField(elems[i])).Ok? && ElementTag(elems[i], tag) == Ok(tv)
      {
        assert recs[i] != null;
      }
    } else {
      var k := failed.value;
      r := Err(if recs[k] == null then TagsField(elems[k]).error else ClassCast);
      forall j | 0 <= j < k
        ensures old(TagsField(elems[j])).Ok? && ElementTag(elems[j], tag) == Ok(tv)
      {
        assert recs[j] != null;
      }
      assert old(TagsField(elems[k])) == Err(r.error);
    }
  }

  /** The record has no binding for `tag`. */
  ghost predicate TagAbsent(rec: Record?, tag: string)
    reads rec, if rec != null then HeldTags(rec) else {}
  {
    && rec != null
    && (FieldGet(rec.fields, TAGS_KEY).Null? ||
        (FieldGet(rec.fields, TAGS_KEY).TagsRef? && tag !in FieldGet(rec.fields, TAGS_KEY).tags.entries))
  }

  /** One pass of the loop of REMOVE_ANNOTATION_TAG, on the record of element
      `i`: it loses the tag and the records before it keep lacking it; only
      the Tags of this record change. */
  method RemoveTagStep(rec: Record, ghost recs: seq<Record?>, i: nat, tag: string)
    requires i < |recs| && recs[i] == rec
    requires TagsFieldOk(rec.fields)
    requires forall j :: 0 <= j < i ==> TagAbsent(recs[j], tag)
    modifies HeldTags(rec)
    ensures forall j :: 0 <= j <= i ==> TagAbsent(recs[j], tag)
    ensures forall t: Tags :: old(allocated(t)) ==> SameOutside(t.entries, old(t.entries), tag)
  {
    var f := FieldGet(rec.fields, TAGS_KEY);
    ghost var before := if f.TagsRef? then f.tags.entries else map[];
    SameOutsideStep(before, tag, null);
    var _ := RemoveTag(rec, tag);
    forall j | 0 <= j <= i
      ensures TagAbsent(recs[j], tag)
    {
      var g := FieldGet(recs[j].fields, TAGS_KEY);
      if g.TagsRef? && g != f {
        assert g.tags.entries == old(g.tags.entries);
      }
    }
  }

  /** The for-each loop of REMOVE_ANNOTATION_TAG over the records of a list:
      removeTag on each in order, up to the first element that is not a
      record or whose Tags field holds something else, whose index it
      returns. The records before it lack the tag; no record changes, and a
      Tags changes at most at `tag`. */
  method RemoveTagEach(recs: seq<Record?>, tag: string, ghost fp: set<object>) returns (failed: Option<nat>)
    requires Covers(recs, fp)
    modifies fp
    ensures Reached(failed, |recs|) <= |recs|
    ensures forall j :: 0 <= j < Reached(failed, |recs|) ==>
      recs[j] != null && TagsFieldOk(recs[j].fields) && TagAbsent(recs[j], tag)
    ensures failed.Some? ==>
      failed.value < |recs| && (recs[failed.value] == null || !TagsFieldOk(recs[failed.value].fields))
    ensures forall j :: 0 <= j < |recs| && recs[j] != null ==> recs[j].fields == old(recs[j].fields)
    ensures forall t: Tags :: t in fp ==> SameOutside(t.entries, old(t.entries), tag)
  {
    var i := 0;
    while i < |recs|
      invariant 0 <= i <= |recs|
      invariant forall j :: 0 <= j < i ==> recs[j] != null && TagsFieldOk(recs[j].fields) && TagAbsent(recs[j], tag)
      invariant forall j :: 0 <= j < |recs| && recs[j] != null ==> recs[j].fields == old(recs[j].fields)
      invariant forall t: Tags :: t in fp ==> SameOutside(t.entries, old(t.entries), tag)
    {
      var rec := recs[i];
      if rec == null || !TagsFieldOk(rec.fields) {
        return Some(i);
      }
      label Step:
      RemoveTagStep(rec, recs, i, tag);
      forall t: Tags | t in fp
        ensures SameOutside(t.entries, old(t.entries), tag)
      {
        assert SameOutside(t.entries, old@Step(t.entries), tag);
      }
      i := i + 1;
    }
    failed := None;
  }

  /** removeTag on every element of a list, in order, stopping at the first bad element. */
  method RemoveTagAll(elems: seq<Obj>, tag: string, ghost fp: set<object>) returns (r: Result<(), Error>)
    requires Covers(RecordsOf(elems), fp)
    modifies fp
    ensures r.Ok? <==> forall i :: 0 <= i < |elems| ==> old(TagsField(elems[i])).Ok?
    ensures r.Err? ==> exists k ::
      && 0 <= k < |elems|
      && (forall j :: 0 <= j < k ==> old(TagsField(elems[j])).Ok? && ElementTag(elems[j], tag) == Ok(null))
      && old(TagsField(elems[k])) == Err(r.error)
    ensures r.Ok? ==> forall i :: 0 <= i < |elems| ==> ElementTag(elems[i], tag) == Ok(null)
    ensures forall i :: 0 <= i < |elems| && elems[i].RecordRef? ==> elems[i].rec.fields == old(elems[i].rec.fields)
    ensures forall t: Tags :: t in fp ==> SameOutside(t.entries, old(t.entries), tag)
  {
    var recs := RecordsOf(elems);
    var failed := RemoveTagEach(recs, tag, fp);
    if failed.None? {
      r := Ok(());
      forall i | 0 <= i < |elems|
        ensures old(TagsField(elems[i])).Ok? && ElementTag(elems[i], tag) == Ok(null)
      {
        assert recs[i] != null;
      }
    } else {
      var k := failed.value;
      r := Err(if recs[k] == null then TagsField(elems[k]).error else ClassCast);
      forall j | 0 <= j < k
        ensures old(TagsField(elems[j])).Ok? && ElementTag(elems[j], tag) == Ok(null)
      {
        assert recs[j] != null;
      }
      assert old(TagsField(elems[k])) == Err(r.error);
    }
  }

  /** getTag of every element of a list, in order, stopping at the first bad element. */
  method TagAll(elems: seq<Obj>, tag: string) returns (r: Result<seq<Obj>, Error>)
    ensures r.Ok? <==> forall i :: 0 <= i < |elems| ==> ElementTag(elems[i], tag).Ok?
    ensures r.Ok? ==>
      && |r.value| == |elems|
      && (forall i :: 0 <= i < |elems| ==> r.value[i] == AsObj(ElementTag(elems[i], tag).value))
    ensures r.Err? ==> exists k ::
      && 0 <= k < |elems|
      && (forall j :: 0 <= j < k ==> ElementTag(elems[j], tag).Ok?)
      && ElementTag(elems[k], tag) == Err(r.error)
  {
    var out: seq<Obj> := [];
    var i := 0;
    while i < |elems|
      invariant 0 <= i <= |elems|
      invariant |out| == i
      invariant forall j :: 0 <= j < i ==> ElementTag(elems[j], tag).Ok?
      invariant forall j :: 0 <= j < i ==> out[j] == AsObj(ElementTag(elems[j], tag).value)
    {
      var t := ElementTag(elems[i], tag);
      if t.Err? {
        assert ElementTag(elems[i], tag) == Err(t.error);
        return Err(t.error);
      }
      out := out + [AsObj(t.value)];
      i := i + 1;
    }
    r := Ok(out);
  }

  /** The objects a record-tag function may touch: the record, or every record of the list, with their Tags. */
  function OperandFootprint(v: Value): set<object>
    reads if v.payload.ListRef? then {v.payload.list} else {}
    reads if v.payload.ListRef? then set i | 0 <= i < |v.payload.list.elems| && v.payload.list.elems[i].RecordRef? :: v.payload.list.elems[i].rec
          else if v.payload.RecordRef? then {v.payload.rec} else {}
  {
    if v.payload.ListRef? then ElemsFootprint(v.payload.list.elems)
    else if v.payload.RecordRef? then Footprint(v.payload)
    else {}
  }

  /** SET_ANNOTATION_TAG: bind a tag of the record, or of each record of the
      list, to the third argument or to null; returns the first argument.
      A list is tagged in order up to its first bad element, where it stops
      with that element's exception. A record changes at most by a new Tags
      in an empty Tags field, a Tags at most at the tag. */
  method SetAnnotationTag(args: seq<Value?>) returns (r: Result<Value?, Error>)
    requires SetAnnotationTagAccepts(args)
    modifies OperandFootprint(args[0])
    ensures r.Ok? ==> r.value == args[0]
    ensures forall t: Tags :: t in old(OperandFootprint(args[0])) ==>
      SameOutside(t.entries, old(t.entries), args[1].payload.str)
    ensures
      var tag := args[1].payload.str;
      var tv := if |args| == 3 then args[2] else null;
      match args[0].payload
      case RecordRef(rec) =>
        && TagsCreated(rec, old(rec.fields))
        && (r.Ok? <==> old(TagsField(RecordRef(rec))).Ok?)
        && (r.Err? ==> r.error == ClassCast && rec.fields == old(rec.fields))
        && (r.Ok? ==> ElementTag(RecordRef(rec), tag) == Ok(tv))
      case ListRef(list) =>
        var elems := list.elems;
        && elems == old(list.elems)
        && (forall i :: 0 <= i < |elems| && elems[i].RecordRef? ==> TagsCreated(elems[i].rec, old(elems[i].rec.fields)))
        && (r.Ok? <==> forall i :: 0 <= i < |elems| ==> old(TagsField(elems[i])).Ok?)
        && (r.Ok? ==> forall i :: 0 <= i < |elems| ==> ElementTag(elems[i], tag) == Ok(tv))
        && (r.Err? ==> exists k ::
              && 0 <= k < |elems|
              && (forall j :: 0 <= j < k ==> old(TagsField(elems[j])).Ok? && ElementTag(elems[j], tag) == Ok(tv))
              && old(TagsField(elems[k])) == Err(r.error))
      case _ => false
  {
    var tag := args[1].payload.str;
    var tv := if |args| == 3 then args[2] else null;
    match args[0].payload
    case RecordRef(rec) =>
      var f := FieldGet(rec.fields, TAGS_KEY);
      ghost var before := if f.TagsRef? then f.tags.entries else map[];
      SameOutsideStep(before, tag, tv);
      var res := SetTag(rec, tag, tv);
      r := if res.Ok? then Ok(args[0]) else Err(res.error);
    case ListRef(list) =>
      ElemsFootprintCovers(list.elems);
      ListOutsideFootprint(list, list.elems);
      var res := SetTagAll(list.elems, tag, tv, ElemsFootprint(list.elems));
      r := if res.Ok? then Ok(args[0]) else Err(res.error);
  }

  /** REMOVE_ANNOTATION_TAG: unbind a tag of the record, or of each record of
      the list; returns the first argument. A list is handled in order up to
      its first bad element, where it stops with that element's exception. No
      record changes, and a Tags changes at most at the tag. */
  method RemoveAnnotationTag(args: seq<Value?>) returns (r: Result<Value?, Error>)
    requires RemoveAnnotationTagAccepts(args)
    modifies OperandFootprint(args[0])
    ensures r.Ok? ==> r.value == args[0]
    ensures forall t: Tags :: t in old(OperandFootprint(args[0])) ==>
      SameOutside(t.entries, old(t.entries), args[1].payload.str)
    ensures
      var tag := args[1].payload.str;
      match args[0].payload
      case RecordRef(rec) =>
        && rec.fields == old(rec.fields)
        && (r.Ok? <==> old(TagsField(RecordRef(rec))).Ok?)
        && (r.Err? ==> r.error == ClassCast)
        && (r.Ok? ==> ElementTag(RecordRef(rec), tag) == Ok(null))
      case ListRef(list) =>
        var elems := list.elems;
        && elems == old(list.elems)
        && (forall i :: 0 <= i < |elems| && elems[i].RecordRef? ==> elems[i].rec.fields == old(elems[i].rec.fields))
        && (r.Ok? <==> forall i :: 0 <= i < |elems| ==> old(TagsField(elems[i])).Ok?)
        && (r.Ok? ==> forall i :: 0 <= i < |elems| ==> ElementTag(elems[i], tag) == Ok(null))
        && (r.Err? ==> exists k ::
              && 0 <= k < |elems|
              && (forall j :: 0 <= j < k ==> old(TagsField(elems[j])).Ok? && ElementTag(elems[j], tag) == Ok(null))
              && old(TagsField(elems[k])) == Err(r.error))
      case _ => false
  {
    var tag := args[1].payload.str;
    match args[0].payload
    case RecordRef(rec) =>
      var f := FieldGet(rec.fields, TAGS_KEY);
      ghost var before := if f.TagsRef? then f.tags.entries else map[];
      SameOutsideStep(before, tag, null);
      var res := RemoveTag(rec, tag);
      r := if res.Ok? then Ok(args[0]) else Err(res.error);
    case ListRef(list) =>
      ElemsFootprintCovers(list.elems);
      ListOutsideFootprint(list, list.elems);
      var res := RemoveTagAll(list.elems, tag, ElemsFootprint(list.elems));
      r := if res.Ok? then Ok(args[0]) else Err(res.error);
  }

  /** The list branch of GET_ANNOTATION_TAG: a new list Value holding the
      Value each record's tag is bound to, or the first failure. */
  method TagList(elems: seq<Obj>, tag: string) returns (r: Result<Value?, Error>)
    ensures r.Ok? <==> forall i :: 0 <= i < |elems| ==> ElementTag(elems[i], tag).Ok?
    ensures r.Err? ==> exists k ::
      && 0 <= k < |elems|
      && (forall j :: 0 <= j < k ==> ElementTag(elems[j], tag).Ok?)
      && ElementTag(elems[k], tag) == Err(r.error)
    ensures r.Ok? ==>
      && r.value != null && fresh(r.value) && r.value.typeName == Some(TYPE_LIST)
      && r.value.payload.ListRef? && fresh(r.value.payload.list)
      && |r.value.payload.list.elems| == |elems|
      && forall i :: 0 <= i < |elems| ==>
           r.value.payload.list.elems[i] == AsObj(ElementTag(elems[i], tag).value)
  {
    var res := TagAll(elems, tag);
    if res.Err? {
      return Err(res.error);
    }
    var out := new JList(res.value);
    var v := Box(Some(TYPE_LIST), ListRef(out));
    r := Ok(v);
  }

  /** GET_ANNOTATION_TAG: the Value a tag of the record is bound to, or a new
      list holding that of each record of the list; null for a null operand. */
  method GetAnnotationTag(args: seq<Value?>) returns (r: Result<Value?, Error>)
    requires GetAnnotationTagAccepts(args)
    ensures NullOperand(args[0]) ==> r == Ok(null)
    ensures !NullOperand(args[0]) && args[0].payload.RecordRef? ==>
      r == ElementTag(args[0].payload, args[1].payload.str)
    ensures !NullOperand(args[0]) && args[0].payload.ListRef? ==>
      var elems := args[0].payload.list.elems;
      var tag := args[1].payload.str;
      && (r.Ok? <==> forall i :: 0 <= i < |elems| ==> ElementTag(elems[i], tag).Ok?)
      && (r.Err? ==> exists k ::
            && 0 <= k < |elems|
            && (forall j :: 0 <= j < k ==> ElementTag(elems[j], tag).Ok?)
            && ElementTag(elems[k], tag) == Err(r.error))
      && (r.Ok? ==>
            && r.value != null && fresh(r.value) && r.value.typeName == Some(TYPE_LIST)
            && r.value.payload.ListRef? && fresh(r.value.payload.list)
            && |r.value.payload.list.elems| == |elems|
            && forall i :: 0 <= i < |elems| ==>
                 r.value.payload.list.elems[i] == AsObj(ElementTag(elems[i], tag).value))
  {
    if NullOperand(args[0]) {
      return Ok(null);
    }
    var tag := args[1].payload.str;
    match args[0].payload
    case RecordRef(rec) =>
      r := ElementTag(args[0].payload, tag);
    case ListRef(list) =>
      r := TagList(list.elems, tag);
  }

  // ---------------------------------------------------------------- ANNOTATION_VALUE

  /** ANNOTATION_VALUE's field argument as an annotation key: a Class is used
      as it is, a String is resolved through the environment. */
  function AnnotationKey(env: Env, field: Obj): (r: Result<Key, Error>)
    requires field.KeyRef? || field.Str?
    ensures field.KeyRef? ==> r == Ok(field.key)
    ensures field.Str? ==> (r.Ok? <==> LookupAnnotationKey(env, field.str).Some?)
    ensures r.Err? ==> r.error == IllegalArgument("Cannot get annotation field " + field.str)
  {
    match field
    case KeyRef(k) => Ok(k)
    case Str(s) =>
      match LookupAnnotationKey(env, s)
      case Some(k) => Ok(k)
      case None => Err(IllegalArgument("Cannot get annotation field " + s))
  }

  /** `cm.get(key)` for one element of a record list: a null element fails
      the dereference, anything but a record the cast to CoreMap. */
  function ElementField(o: Obj, key: Key): (r: Result<Obj, Error>)
    reads if o.RecordRef? then {o.rec} else {}
    ensures r.Ok? <==> o.RecordRef?
    ensures r.Ok? ==> r.value == FieldGet(o.rec.fields, key)
    ensures r.Err? ==> r.error == (if o.Null? then NullPointer else ClassCast)
  {
    match o
    case Null => Err(NullPointer)
    case RecordRef(rec) => Ok(FieldGet(rec.fields, key))
    case _ => Err(ClassCast)
  }

  /** The records of a list. */
  function Records(elems: seq<Obj>): set<Record> {
    set i | 0 <= i < |elems| && elems[i].RecordRef? :: elems[i].rec
  }

  /** Whether the record occurs among the first `n` elements. */
  ghost predicate SeenBefore(elems: seq<Obj>, n: int, rec: Record) {
    exists j :: 0 <= j < n && j < |elems| && elems[j] == RecordRef(rec)
  }

  /** `cm.set(key, obj)` on every element of a list, in order, stopping at the first non-record. */
  method SetFieldAll(elems: seq<Obj>, key: Key, obj: Obj) returns (r: Result<(), Error>)
    modifies Records(elems)
    ensures r.Ok? <==> forall i :: 0 <= i < |elems| ==> elems[i].RecordRef?
    ensures r.Err? ==> exists k ::
      && 0 <= k < |elems|
      && (forall j :: 0 <= j < k ==> elems[j].RecordRef?)
      && ElementField(elems[k], key) == Err(r.error)
      && (forall rec :: rec in Records(elems) ==>
            rec.fields == if SeenBefore(elems, k, rec) then old(rec.fields)[key := obj] else old(rec.fields))
    ensures r.Ok? ==> forall rec :: rec in Records(elems) ==> rec.fields == old(rec.fields)[key := obj]
    ensures forall rec :: rec in Records(elems) ==>
      rec.fields == old(rec.fields) || rec.fields == old(rec.fields)[key := obj]
  {
    var i := 0;
    while i < |elems|
      invariant 0 <= i <= |elems|
      invariant forall j :: 0 <= j < i ==> elems[j].RecordRef?
      invariant forall rec :: rec in Records(elems) ==>
        rec.fields == if SeenBefore(elems, i, rec) then old(rec.fields)[key := obj] else old(rec.fields)
    {
      var o := elems[i];
      if !o.RecordRef? {
        assert ElementField(elems[i], key) == Err(ElementField(o, key).error);
        return Err(ElementField(o, key).error);
      }
      var rec := o.rec;
      rec.fields := rec.fields[key := obj];
      assert SeenBefore(elems, i + 1, rec);
      i := i + 1;
    }
    forall rec | rec in Records(elems)
      ensures rec.fields == old(rec.fields)[key := obj]
    {
      var j :| 0 <= j < |elems| && elems[j].RecordRef? && elems[j].rec == rec;
      assert SeenBefore(elems, |elems|, rec);
    }
    r := Ok(());
  }

  /** `cm.get(key)` of every element of a list, in order, stopping at the first non-record. */
  method FieldAll(elems: seq<Obj>, key: Key) returns (r: Result<seq<Obj>, Error>)
    ensures r.Ok? <==> forall i :: 0 <= i < |elems| ==> elems[i].RecordRef?
    ensures r.Ok? ==>
      && |r.value| == |elems|
      && (forall i :: 0 <= i < |elems| ==> r.value[i] == FieldGet(elems[i].rec.fields, key))
    ensures r.Err? ==> exists k ::
      && 0 <= k < |elems|
      && (forall j :: 0 <= j < k ==> elems[j].RecordRef?)
      && ElementField(elems[k], key) == Err(r.error)
  {
    var out: seq<Obj> := [];
    var i := 0;
    while i < |elems|
      invariant 0 <= i <= |elems|
      invariant |out| == i
      invariant forall j :: 0 <= j < i ==> elems[j].RecordRef? && out[j] == FieldGet(elems[j].rec.fields, key)
    {
      var f := ElementField(elems[i], key);
      if f.Err? {
        assert ElementField(elems[i], key) == Err(f.error);
        return Err(f.error);
      }
      out := out + [f.value];
      i := i + 1;
    }
    r := Ok(out);
  }

  /** The records ANNOTATION_VALUE may assign a field of. */
  function AnnotatedRecords(v: Value): set<object>
    reads if v.payload.ListRef? then {v.payload.list} else {}
  {
    if v.payload.ListRef? then Records(v.payload.list.elems)
    else if v.payload.RecordRef? then {v.payload.rec}
    else {}
  }

  /** ANNOTATION_VALUE: read a field of the record (or a new list of that field
      of each record of the list), first assigning the third argument's
      payload to it (in every record) when there is one. */
  method Annotation(env: Env, args: seq<Value?>) returns (r: Result<Value?, Error>)
    requires AnnotationAccepts(args)
    modifies AnnotatedRecords(args[0])
    ensures AnnotationKey(env, args[1].payload).Err? ==>
      r == Err(AnnotationKey(env, args[1].payload).error)
    ensures (AnnotationKey(env, args[1].payload).Err? || |args| == 2) ==>
      match args[0].payload
      case RecordRef(rec) => rec.fields == old(rec.fields)
      case ListRef(list) => forall rec :: rec in Records(list.elems) ==> rec.fields == old(rec.fields)
      case _ => false
    ensures AnnotationKey(env, args[1].payload).Ok? ==>
      var key := AnnotationKey(env, args[1].payload).value;
      var obj := PayloadOrNull(if |args| == 3 then args[2] else null);
      match args[0].payload
      case RecordRef(rec) =>
        && (|args| == 3 ==> rec.fields == old(rec.fields)[key := obj])
        && r.Ok? && r.value != null && fresh(r.value)
        && r.value.typeName == Some(key.name) && r.value.payload == FieldGet(rec.fields, key)
        && (|args| == 3 ==> r.value.payload == obj)
      case ListRef(list) =>
        var elems := list.elems;
        && elems == old(list.elems)
        && (r.Ok? <==> forall i :: 0 <= i < |elems| ==> elems[i].RecordRef?)
        && (|args| == 3 && r.Ok? ==> forall rec :: rec in Records(elems) ==> rec.fields == old(rec.fields)[key := obj])
        && (r.Err? ==> exists k ::
              && 0 <= k < |elems|
              && (forall j :: 0 <= j < k ==> elems[j].RecordRef?)
              && ElementField(elems[k], key) == Err(r.error)
              && (|args| == 3 ==> forall rec :: rec in Records(elems) ==>
                    rec.fields == if SeenBefore(elems, k, rec) then old(rec.fields)[key := obj] else old(rec.fields)))
        && (r.Ok? ==>
              && r.value != null && fresh(r.value) && r.value.typeName == Some(TYPE_LIST)
              && r.value.payload.ListRef? && fresh(r.value.payload.list)
              && |r.value.payload.list.elems| == |elems|
              && (forall i :: 0 <= i < |elems| ==> r.value.payload.list.elems[i] == FieldGet(elems[i].rec.fields, key))
              && (|args| == 3 ==> forall i :: 0 <= i < |elems| ==> r.value.payload.list.elems[i] == obj))
      case _ => false
  {
    var k := AnnotationKey(env, args[1].payload);
    if k.Err? {
      return Err(k.error);
    }
    var key := k.value;
    var obj := PayloadOrNull(if |args| == 3 then args[2] else null);
    match args[0].payload
    case RecordRef(rec) =>
      if |args| == 3 {
        rec.fields := rec.fields[key := obj];
      }
      var v := Box(Some(key.name), FieldGet(rec.fields, key));
      r := Ok(v);
    case ListRef(list) =>
      if |args| == 3 {
        var w := SetFieldAll(list.elems, key, obj);
        if w.Err? {
          return Err(w.error);
        }
      }
      var res := FieldAll(list.elems, key);
      if res.Err? {
        return Err(res.error);
      }
      var out := new JList(res.value);
      var v := Box(Some(TYPE_LIST), ListRef(out));
      r := Ok(v);
  }
}
