/**
 * `AbstractModel`: a model is an array-access view of its `values` array,
 * guarded by the `fields` array its subclass declares. Both may hold a
 * nested `custom_fields` section. Reads and writes here follow the paths
 * taken when the model has no getter or setter method for the offset;
 * custom-field records are appended to `values["custom_fields"]`.
 */
module Models {
  import opened Wrappers
  import opened Assoc
  import opened Php
  import Format

  /** The key of the nested custom-field section, in `fields` and in `values`. */
  const CUSTOM: Key := StrKey("custom_fields")

  /** The message of the exception `offsetSet` throws for an unknown offset. */
  const NOT_EXISTS: string := "Parametr not exists: "

  const ID_MESSAGE: string := "Id must be integer and positive"

  /** `$a[$k]` where a missing key reads as null. */
  function Slot(a: PArray, k: Key): (r: Value)
    ensures r != Null <==> Isset(a, k)
    ensures Isset(a, k) ==> Get(a, k) == Some(r)
  {
    Get(a, k).GetOr(Null)
  }

  // ------------------------------------------------------------ offsets

  /**
   * The position `$s[$o]` denotes in a string: `o` must be an integer-numeric
   * string (leading zeros and surrounding whitespace allowed); negative
   * offsets count from the end. Positions count characters, not bytes.
   */
  function StringOffset(s: string, o: string): (r: Option<nat>)
    ensures r.Some? ==> r.value < |s|
    ensures r.Some? <==> IntegerNumeric(o).Some? && -|s| <= IntegerNumeric(o).value < |s|
    ensures r.Some? && IntegerNumeric(o).value >= 0 ==> r.value == IntegerNumeric(o).value
    ensures r.Some? && IntegerNumeric(o).value < 0 ==> r.value == |s| + IntegerNumeric(o).value
  {
    match IntegerNumeric(o)
    case Some(n) => if 0 <= n < |s| then Some(n) else if -|s| <= n < 0 then Some(|s| + n) else None
    case None => None
  }

  /** `isset($v[$o])` for a value that need not be an array. */
  predicate NestedIsset(v: Value, o: string)
  {
    match v
    case Arr(a) => Isset(a, KeyOf(o))
    case Str(s) => StringOffset(s, o).Some?
    case _ => false
  }

  /** `$v[$o]` once `isset($v[$o])` holds: an array entry, or a one-character string. */
  function NestedRead(v: Value, o: string): (r: Value)
    requires NestedIsset(v, o)
    ensures r != Null
  {
    if v.Arr? then Slot(v.a, KeyOf(o)) else Str([v.s[StringOffset(v.s, o).value]])
  }

  /** A string section answers an offset with leading zeros, which no array key matches. */
  lemma PaddedStringOffset()
    ensures NestedIsset(Str("ab"), "01") && NestedRead(Str("ab"), "01") == Str("b")
    ensures NestedIsset(Str("ab"), " -1") && NestedRead(Str("ab"), " -1") == Str("b")
    ensures !NestedIsset(Arr(PArray([(IntKey(1), Str("b"))], 2)), "01")
  {
    PaddedNumerals();
    PaddedNegative();
  }

  /** `offsetExists($o)`: `o` is a KEY of `fields` or of `fields["custom_fields"]`. */
  predicate FieldExists(fields: PArray, o: string)
  {
    Isset(fields, KeyOf(o)) || (Isset(fields, CUSTOM) && NestedIsset(Slot(fields, CUSTOM), o))
  }

  /**
   * `$o == $v` for a string offset under PHP 8's loose comparison: null is
   * equal to the empty string, a boolean to the string's truth value; an
   * integer is compared by value with an integer-numeric string and by its
   * decimal text with any other string; two integer-numeric strings are
   * compared by value, other strings by their text.
   */
  predicate LooseEquals(o: string, v: Value)
  {
    match v
    case Null => o == ""
    case Bool(b) => Truthy(Str(o)) == b
    case Int(i) => if IntegerNumeric(o).Some? then IntegerNumeric(o).value == i else o == DecimalString(i)
    case Str(s) => if IntegerNumeric(o).Some? && IntegerNumeric(s).Some? then IntegerNumeric(o) == IntegerNumeric(s) else o == s
    case Arr(_) => false
  }

  /** `in_array($o, $a)`: `o` is loosely equal to some VALUE of `a`. */
  predicate InArray(o: string, a: PArray)
  {
    exists i | 0 <= i < |a.entries| :: LooseEquals(o, a.entries[i].1)
  }

  function TypeName(v: Value): string
  {
    match v
    case Null => "null"
    case Bool(_) => "bool"
    case Int(_) => "int"
    case Str(_) => "string"
    case Arr(_) => "array"
  }

  /** The TypeError `in_array` raises when its haystack is not an array. */
  function HaystackError(v: Value): Failure
  {
    PhpError("in_array(): Argument #2 ($haystack) must be of type array, " + TypeName(v) + " given")
  }

  /** Whether the setter-less `offsetSet` writes `o` somewhere: a listed field or a listed custom field. */
  predicate Writable(fields: PArray, o: string)
  {
    InArray(o, fields)
    || (Isset(fields, CUSTOM) && Slot(fields, CUSTOM).Arr? && InArray(o, Slot(fields, CUSTOM).a))
  }

  /**
   * The array that `$slot[...] = ...` writes into: a missing, null or `false`
   * slot starts a new array, an array is written in place, any other scalar
   * is an error (`onString` is the failure for a string slot).
   */
  function WritableSection(slot: Value, onString: Failure): (r: Result<PArray>)
    ensures r.Ok? <==> slot.Null? || slot == Bool(false) || slot.Arr?
    ensures r.Ok? ==> r.value == if slot.Arr? then slot.a else EmptyArray
  {
    match slot
    case Null => Ok(EmptyArray)
    case Bool(b) => if b then Err(PhpError("Cannot use a scalar value as an array")) else Ok(EmptyArray)
    case Int(_) => Err(PhpError("Cannot use a scalar value as an array"))
    case Str(_) => Err(onString)
    case Arr(a) => Ok(a)
  }

  /** A write into a custom section that holds a string (a string-offset write, not modelled). */
  const STRING_OFFSET_WRITE: Failure := PhpError("string offset write")

  /** `offsetSet($o, $v)` for a model without a setter method for `o`. */
  function SetOffset(fields: PArray, values: PArray, o: string, v: Value): Result<PArray>
  {
    var k := KeyOf(o);
    if !FieldExists(fields, o) then Err(ModelException(NOT_EXISTS + o))
    else if InArray(o, fields) then Ok(Set(values, k, v))
    else if !Isset(fields, CUSTOM) then Ok(values)
    else if !Slot(fields, CUSTOM).Arr? then Err(HaystackError(Slot(fields, CUSTOM)))
    else if !InArray(o, Slot(fields, CUSTOM).a) then Ok(values)
    else
      match WritableSection(Slot(values, CUSTOM), STRING_OFFSET_WRITE)
      case Err(e) => Err(e)
      case Ok(section) => Ok(Set(values, CUSTOM, Arr(Set(section, k, v))))
  }

  /** `offsetGet($o)` for a model without a getter method for `o`. */
  function ReadOffset(values: PArray, o: string): Value
  {
    var k := KeyOf(o);
    if Isset(values, k) then Slot(values, k)
    else if Isset(values, CUSTOM) && NestedIsset(Slot(values, CUSTOM), o) then NestedRead(Slot(values, CUSTOM), o)
    else Null
  }

  /** `offsetUnset($o)`. */
  function UnsetOffset(values: PArray, o: string): Result<PArray>
  {
    var k := KeyOf(o);
    if Isset(values, k) then Ok(Unset(values, k))
    else if Isset(values, CUSTOM) && NestedIsset(Slot(values, CUSTOM), o) then
      if Slot(values, CUSTOM).Arr? then Ok(Set(values, CUSTOM, Arr(Unset(Slot(values, CUSTOM).a, k))))
      else Err(PhpError("Cannot unset string offsets"))
    else Ok(values)
  }

  // ------------------------------------------------------ custom fields

  /** `list($value, $enum) = $val`: entries 0 and 1, null when missing or when `val` is not an array. */
  function Destructure(val: Value): (Value, Value)
  {
    if val.Arr? then (Slot(val.a, IntKey(0)), Slot(val.a, IntKey(1))) else (Null, Null)
  }

  /** One entry of a custom field's `values`: `value`, then `enum` and `subtype` unless they are `false`. */
  function ValueEntry(val: Value, subtype: Value): PArray
  {
    var value := Destructure(val).0;
    var enum := Destructure(val).1;
    PArray([(StrKey("value"), value)]
           + (if enum != Bool(false) then [(StrKey("enum"), enum)] else [])
           + (if subtype != Bool(false) then [(StrKey("subtype"), subtype)] else []), 0)
  }

  /** The PHP list `[vs[0], ..., vs[n-1]]`, built by appending. */
  function ListOf(vs: seq<Value>): (r: PArray)
    ensures Wf(r) && r.nextFree == |vs| && |r.entries| == |vs|
    ensures forall i | 0 <= i < |vs| :: r.entries[i] == (IntKey(i), vs[i])
  {
    if vs == [] then EmptyArray
    else
      var init := vs[..|vs| - 1];
      assert init + [vs[|vs| - 1]] == vs;
      PushListed(ListOf(init), init, vs[|vs| - 1]);
      Push(ListOf(init), vs[|vs| - 1])
  }

  /** Pushing onto the list of `vs` gives the list of `vs + [x]`. */
  lemma PushListed(prev: PArray, vs: seq<Value>, x: Value)
    requires Wf(prev) && prev.nextFree == |vs| && |prev.entries| == |vs|
    requires forall i | 0 <= i < |vs| :: prev.entries[i] == (IntKey(i), vs[i])
    ensures var r := Push(prev, x);
            Wf(r) && r.nextFree == |vs| + 1 && |r.entries| == |vs| + 1
            && forall i | 0 <= i < |vs| + 1 :: r.entries[i] == (IntKey(i), (vs + [x])[i])
  {
  }

  /** The array `addCustomField` iterates over: the pairs given, or the one pair `[$value, $enum]`. */
  function PairsOf(value: Value, enum: Value): PArray
  {
    if value.Arr? then value.a else List1(Arr(List2(value, enum)))
  }

  /** The entries built from each element of `pairs`, in order. */
  function EntryValues(pairs: PArray, subtype: Value): seq<Value>
  {
    seq(|pairs.entries|, i requires 0 <= i < |pairs.entries| => Arr(ValueEntry(pairs.entries[i].1, subtype)))
  }

  /** The body of the `foreach` of `addCustomField`: one value entry, built key by key. */
  method BuildEntry(val: Value, subtype: Value) returns (entry: PArray)
    ensures entry == ValueEntry(val, subtype)
    ensures Get(entry, StrKey("value")) == Some(Destructure(val).0)
  {
    var value, enum := Destructure(val).0, Destructure(val).1;
    entry := PArray([(StrKey("value"), value)], 0);
    if enum != Bool(false) {
      entry := PArray(entry.entries + [(StrKey("enum"), enum)], 0);
    }
    if subtype != Bool(false) {
      entry := PArray(entry.entries + [(StrKey("subtype"), subtype)], 0);
    }
  }

  /** The `foreach` of `addCustomField`: one entry per pair, appended in order. */
  method BuildValues(pairs: PArray, subtype: Value) returns (list: PArray)
    ensures list == ListOf(EntryValues(pairs, subtype))
  {
    ghost var all := EntryValues(pairs, subtype);
    list := EmptyArray;
    var i := 0;
    while i < |pairs.entries|
      invariant 0 <= i <= |pairs.entries| == |all|
      invariant list == ListOf(all[..i])
    {
      var entry := BuildEntry(pairs.entries[i].1, subtype);
      assert all[i] == Arr(entry);
      assert all[..i + 1] == all[..i] + [all[i]];
      ListOfSnoc(all[..i], all[i]);
      list := Push(list, Arr(entry));
      i := i + 1;
    }
    assert all[..i] == all;
  }

  /** Appending to a list is listing one more element. */
  lemma ListOfSnoc(vs: seq<Value>, x: Value)
    ensures ListOf(vs + [x]) == Push(ListOf(vs), x)
  {
    assert (vs + [x])[..|vs|] == vs;
  }

  /** The record `['id' => $id, 'values' => $vals]` one call appends. */
  function Record(id: Value, vals: PArray): PArray
  {
    PArray([(StrKey("id"), id), (StrKey("values"), Arr(vals))], 0)
  }

  /** `$values['custom_fields'][] = $rec`. */
  function AppendRecord(values: PArray, rec: PArray): Result<PArray>
  {
    match WritableSection(Slot(values, CUSTOM), PhpError("[] operator not supported for strings"))
    case Err(e) => Err(e)
    case Ok(section) => Ok(Set(values, CUSTOM, Arr(Push(section, Arr(rec)))))
  }

  /** `addCustomField($id, $value, $enum, $subtype)`. */
  function AddCustomFieldTo(values: PArray, id: Value, value: Value, enum: Value, subtype: Value): Result<PArray>
  {
    AppendRecord(values, Record(id, ListOf(EntryValues(PairsOf(value, enum), subtype))))
  }

  /** `addCustomMultiField($id, $values)`: a non-array is wrapped into a one-element list. */
  function AddCustomMultiFieldTo(values: PArray, id: Value, vals: Value): Result<PArray>
  {
    AppendRecord(values, Record(id, if vals.Arr? then vals.a else List1(vals)))
  }

  /** A custom section that is an array is a well-formed PHP array. */
  ghost predicate SectionWf(values: PArray)
  {
    Slot(values, CUSTOM).Arr? ==> Wf(Slot(values, CUSTOM).a)
  }

  // --------------------------------------------------------------- ids

  /** The ids `checkId` is given: integers, floats, booleans and null. */
  datatype Id = IntId(n: int) | FloatId(x: real) | BoolId(b: bool) | NullId

  /** `intval($id)`: a float is truncated toward zero. */
  function IntVal(id: Id): int
  {
    match id
    case IntId(n) => n
    case FloatId(x) => if x >= 0.0 then x.Floor else -((-x).Floor)
    case BoolId(b) => if b then 1 else 0
    case NullId => 0
  }

  /** `intval($id) != $id`: an integer against a boolean or null compares as booleans. */
  predicate ChangedByIntVal(id: Id)
  {
    match id
    case IntId(_) => false
    case FloatId(x) => IntVal(id) as real != x
    case BoolId(b) => (IntVal(id) != 0) != b
    case NullId => IntVal(id) != 0
  }

  /** `$id < 1`: a boolean or null against an integer compares as booleans (`false < true`). */
  predicate BelowOne(id: Id)
  {
    match id
    case IntId(n) => n < 1
    case FloatId(x) => x < 1.0
    case BoolId(b) => !b
    case NullId => true
  }

  /** `checkId($id)`. */
  function CheckId(id: Id): (r: Result<bool>)
    ensures r.Ok? ==> r.value
    ensures r.Err? ==> r.error == Exception(ID_MESSAGE)
  {
    if ChangedByIntVal(id) || BelowOne(id) then Err(Exception(ID_MESSAGE)) else Ok(true)
  }

  /**
   * `checkId` accepts exactly the whole numbers from 1 on, and `true`
   * (which PHP compares as equal to 1 and not below it).
   */
  lemma CheckIdAccepts(id: Id)
    ensures CheckId(id).Ok? <==> match id
      case IntId(n) => n >= 1
      case FloatId(x) => x >= 1.0 && x == x.Floor as real
      case BoolId(b) => b
      case NullId => false
  {
  }

  // ------------------------------------------------------------- model

  /** A model: the field layout its subclass declares, and the values set on it. */
  class Model {
    const fields: PArray
    var values: PArray

    ghost predicate Valid()
      reads this
    {
      Wf(values) && SectionWf(values)
    }

    constructor(fields: PArray)
      ensures this.fields == fields && values == EmptyArray && Valid()
    {
      this.fields := fields;
      values := EmptyArray;
    }

    /** `offsetExists($o)`. */
    predicate OffsetExists(o: string)
    {
      FieldExists(fields, o)
    }

    /** `offsetGet($o)` without a getter. */
    function OffsetGet(o: string): Value
      reads this
    {
      ReadOffset(values, o)
    }

    /** `getValues()`. */
    function GetValues(): PArray
      reads this
    {
      values
    }

    /** `offsetSet($o, $v)` without a setter. */
    method OffsetSet(o: string, v: Value) returns (r: Result<()>)
      requires Valid() && (v.Arr? ==> Wf(v.a))
      modifies this
      ensures Valid()
      ensures r.Err? ==> values == old(values)
      ensures r == Err(ModelException(NOT_EXISTS + o)) <==> !OffsetExists(o)
      ensures r.Ok? && Writable(fields, o) && v != Null
              && (InArray(o, fields) || (!Isset(old(values), KeyOf(o)) && KeyOf(o) != CUSTOM))
              ==> OffsetGet(o) == v
      ensures match SetOffset(fields, old(values), o, v)
              case Ok(nv) => r == Ok(()) && values == nv
              case Err(e) => r == Err(e)
    {
      SetOffsetGuard(fields, values, o, v);
      if SetOffset(fields, values, o, v).Ok? && Writable(fields, o) && v != Null
         && (InArray(o, fields) || (!Isset(values, KeyOf(o)) && KeyOf(o) != CUSTOM)) {
        SetThenRead(fields, values, o, v);
      }
      if !OffsetExists(o) {
        return Err(ModelException(NOT_EXISTS + o));
      }
      var k := KeyOf(o);
      if InArray(o, fields) {
        GetSetWf(values, k, v);
        values := Set(values, k, v);
        return Ok(());
      }
      if Isset(fields, CUSTOM) {
        var names := Slot(fields, CUSTOM);
        if !names.Arr? {
          return Err(HaystackError(names));
        }
        if InArray(o, names.a) {
          var section := WritableSection(Slot(values, CUSTOM), STRING_OFFSET_WRITE);
          if section.Err? {
            return Err(section.error);
          }
          SetCustomFacts(values, Set(section.value, k, v));
          values := Set(values, CUSTOM, Arr(Set(section.value, k, v)));
        }
      }
      r := Ok(());
    }

    /** `offsetUnset($o)`. */
    method OffsetUnset(o: string) returns (r: Result<()>)
      requires Valid()
      modifies this
      ensures Valid()
      ensures r.Err? ==> values == old(values)
      ensures match UnsetOffset(old(values), o)
              case Ok(nv) => r == Ok(()) && values == nv
              case Err(e) => r == Err(e)
    {
      var k := KeyOf(o);
      if Isset(values, k) {
        GetUnsetWf(values, k);
        values := Unset(values, k);
      } else if Isset(values, CUSTOM) && NestedIsset(Slot(values, CUSTOM), o) {
        var section := Slot(values, CUSTOM);
        if !section.Arr? {
          return Err(PhpError("Cannot unset string offsets"));
        }
        SetCustomFacts(values, Unset(section.a, k));
        values := Set(values, CUSTOM, Arr(Unset(section.a, k)));
      }
      r := Ok(());
    }

    /**
     * `addCustomField($id, $value, $enum, $subtype)`: one record holding one
     * value entry per pair, appended after the records already there.
     */
    method AddCustomField(id: Value, value: Value, enum: Value, subtype: Value) returns (r: Result<()>)
      requires Valid()
      modifies this
      ensures Valid()
      ensures r.Err? ==> values == old(values)
      ensures match AddCustomFieldTo(old(values), id, value, enum, subtype)
              case Ok(nv) => r == Ok(()) && values == nv
              case Err(e) => r == Err(e)
    {
      var pairs := if value.Arr? then value.a else List1(Arr(List2(value, enum)));
      var list := BuildValues(pairs, subtype);
      r := Append(Record(id, list));
    }

    /** `addCustomMultiField($id, $values)`. */
    method AddCustomMultiField(id: Value, vals: Value) returns (r: Result<()>)
      requires Valid()
      modifies this
      ensures Valid()
      ensures r.Err? ==> values == old(values)
      ensures match AddCustomMultiFieldTo(old(values), id, vals)
              case Ok(nv) => r == Ok(()) && values == nv
              case Err(e) => r == Err(e)
    {
      var list := if vals.Arr? then vals.a else List1(vals);
      r := Append(Record(id, list));
    }

    /** `$this->values['custom_fields'][] = $rec`. */
    method Append(rec: PArray) returns (r: Result<()>)
      requires Valid()
      modifies this
      ensures Valid()
      ensures r.Err? ==> values == old(values)
      ensures match AppendRecord(old(values), rec)
              case Ok(nv) => r == Ok(()) && values == nv
              case Err(e) => r == Err(e)
    {
      var section := WritableSection(Slot(values, CUSTOM), PhpError("[] operator not supported for strings"));
      if section.Err? {
        return Err(section.error);
      }
      SetCustomFacts(values, Push(section.value, Arr(rec)));
      values := Set(values, CUSTOM, Arr(Push(section.value, Arr(rec))));
      r := Ok(());
    }
  }

  // ------------------------------------------------------ frame helpers

  /** A top-level write keeps `values` well formed, given a well-formed array for `custom_fields`. */
  lemma GetSetWf(values: PArray, k: Key, v: Value)
    requires Wf(values) && SectionWf(values) && (v.Arr? ==> Wf(v.a))
    ensures Wf(Set(values, k, v)) && SectionWf(Set(values, k, v))
  {
    GetSet(values, k, v, CUSTOM);
  }

  /** Writing a section keeps `values` well formed, and a well-formed section keeps it so. */
  lemma SetCustomFacts(values: PArray, section: PArray)
    requires Wf(values) && SectionWf(values)
    ensures Wf(Set(values, CUSTOM, Arr(section)))
    ensures Wf(section) ==> SectionWf(Set(values, CUSTOM, Arr(section)))
  {
    GetSet(values, CUSTOM, Arr(section), CUSTOM);
  }

  lemma GetUnsetWf(values: PArray, k: Key)
    requires Wf(values) && SectionWf(values)
    ensures Wf(Unset(values, k)) && SectionWf(Unset(values, k))
  {
    GetUnset(values, k, CUSTOM);
  }

  // --------------------------------------------------- offset properties

  /** `offsetSet` throws its ModelException exactly for the offsets `offsetExists` rejects. */
  lemma SetOffsetGuard(fields: PArray, values: PArray, o: string, v: Value)
    ensures SetOffset(fields, values, o, v) == Err(ModelException(NOT_EXISTS + o)) <==> !FieldExists(fields, o)
  {
  }

  /**
   * A non-null value written to a writable offset is what `offsetGet` reads
   * back, unless a custom field is shadowed by a top-level value of the same name.
   */
  lemma SetThenRead(fields: PArray, values: PArray, o: string, v: Value)
    requires SetOffset(fields, values, o, v).Ok? && Writable(fields, o) && v != Null
    requires InArray(o, fields) || (!Isset(values, KeyOf(o)) && KeyOf(o) != CUSTOM)
    ensures ReadOffset(SetOffset(fields, values, o, v).value, o) == v
  {
    var k := KeyOf(o);
    if InArray(o, fields) {
      GetSet(values, k, v, k);
    } else {
      var section := WritableSection(Slot(values, CUSTOM), STRING_OFFSET_WRITE).value;
      GetSet(values, CUSTOM, Arr(Set(section, k, v)), k);
      GetSet(values, CUSTOM, Arr(Set(section, k, v)), CUSTOM);
      GetSet(section, k, v, k);
    }
  }

  /**
   * `offsetSet` changes no top-level entry but the offset's own and the
   * custom section, and changes nothing at all for an offset that exists
   * but is listed nowhere.
   */
  lemma SetOffsetFrame(fields: PArray, values: PArray, o: string, v: Value, j: Key)
    requires SetOffset(fields, values, o, v).Ok?
    ensures j != KeyOf(o) && j != CUSTOM ==> Get(SetOffset(fields, values, o, v).value, j) == Get(values, j)
    ensures !Writable(fields, o) ==> SetOffset(fields, values, o, v).value == values
  {
    var k := KeyOf(o);
    if InArray(o, fields) {
      GetSet(values, k, v, j);
    } else if Writable(fields, o) {
      var section := WritableSection(Slot(values, CUSTOM), STRING_OFFSET_WRITE).value;
      GetSet(values, CUSTOM, Arr(Set(section, k, v)), j);
    }
  }

  /**
   * With a positional `fields` list of names (integer keys only, values that
   * are not integer-numeric strings), `offsetSet` never writes: a name is not a key,
   * so it throws, and an index is a key but not a listed name.
   */
  lemma PositionalFieldsNeverWrite(fields: PArray, values: PArray, o: string, v: Value)
    requires forall k | k in Keys(fields.entries) :: k.IntKey?
    requires forall i | 0 <= i < |fields.entries| ::
               fields.entries[i].1.Str? && IntegerNumeric(fields.entries[i].1.s).None?
    ensures SetOffset(fields, values, o, v) == Err(ModelException(NOT_EXISTS + o))
            || SetOffset(fields, values, o, v) == Ok(values)
  {
    if FieldExists(fields, o) {
      assert !Isset(fields, CUSTOM);
      assert KeyOf(o).IntKey?;
      KeyIsIntegerNumeric(o);
      forall i | 0 <= i < |fields.entries| ensures !LooseEquals(o, fields.entries[i].1) {
        assert o != fields.entries[i].1.s;
      }
    }
  }

  /** The field list of the test model: `["id", "name"]`, keys 0 and 1. */
  const TEST_FIELDS: PArray := List2(Str("id"), Str("name"))

  /** On the test model, `id` and `name` do not exist as offsets but `0` and `1` do. */
  lemma TestModelOffsets(values: PArray, v: Value)
    ensures !FieldExists(TEST_FIELDS, "id") && !FieldExists(TEST_FIELDS, "name")
    ensures FieldExists(TEST_FIELDS, "0") && FieldExists(TEST_FIELDS, "1")
    ensures SetOffset(TEST_FIELDS, values, "id", v) == Err(ModelException(NOT_EXISTS + "id"))
    ensures SetOffset(TEST_FIELDS, values, "0", v) == Ok(values)
  {
    assert !IsCanonicalInt("id") && !IsCanonicalInt("name");
    assert TrimSpace("id") == "id" && !IsDigit("id"[0]);
    assert TrimSpace("name") == "name" && !IsDigit("name"[0]);
    KeyOfDecimal(0);
    KeyOfDecimal(1);
    assert DecimalString(1) == "1" by { assert Digits(1) == [DigitChar(1)]; }
    PositionalFieldsNeverWrite(TEST_FIELDS, values, "0", v);
  }

  /**
   * `offsetUnset` removes the top-level value when it is set; otherwise it
   * removes the custom value when that is set; otherwise nothing changes.
   */
  lemma UnsetOffsetEffect(values: PArray, o: string, j: Key)
    ensures var k := KeyOf(o);
            var r := UnsetOffset(values, o);
            (Isset(values, k) ==>
               r.Ok? && Get(r.value, k) == None && (j != k ==> Get(r.value, j) == Get(values, j)))
            && (!Isset(values, k) && Isset(values, CUSTOM) && Slot(values, CUSTOM).Arr?
                && Isset(Slot(values, CUSTOM).a, k) ==>
                  r.Ok? && ReadOffset(r.value, o) == Null
                  && (j != CUSTOM ==> Get(r.value, j) == Get(values, j))
                  && Slot(r.value, CUSTOM).Arr?
                  && Get(Slot(r.value, CUSTOM).a, k) == None
                  && (j != k ==> Get(Slot(r.value, CUSTOM).a, j) == Get(Slot(values, CUSTOM).a, j)))
            && (!Isset(values, k) && !(Isset(values, CUSTOM) && NestedIsset(Slot(values, CUSTOM), o)) ==>
                  r == Ok(values))
  {
    var k := KeyOf(o);
    if Isset(values, k) {
      GetUnset(values, k, k);
      GetUnset(values, k, j);
    } else if Isset(values, CUSTOM) && Slot(values, CUSTOM).Arr? && Isset(Slot(values, CUSTOM).a, k) {
      var a := Slot(values, CUSTOM).a;
      var nv := Set(values, CUSTOM, Arr(Unset(a, k)));
      GetSet(values, CUSTOM, Arr(Unset(a, k)), j);
      GetSet(values, CUSTOM, Arr(Unset(a, k)), k);
      GetSet(values, CUSTOM, Arr(Unset(a, k)), CUSTOM);
      GetUnset(a, k, k);
      GetUnset(a, k, j);
    }
  }

  // --------------------------------------------- custom-field properties

  /**
   * Appending a record keeps the earlier records, in order, and adds the new
   * one at the next index; nothing outside the custom section changes.
   */
  lemma AppendKeepsRecords(values: PArray, rec: PArray, j: Key)
    requires SectionWf(values)
    ensures var slot := Slot(values, CUSTOM);
            var r := AppendRecord(values, rec);
            (r.Ok? <==> slot.Null? || slot == Bool(false) || slot.Arr?)
            && (r.Ok? ==>
                  var before := if slot.Arr? then slot.a else EmptyArray;
                  Slot(r.value, CUSTOM).Arr?
                  && Slot(r.value, CUSTOM).a.entries == before.entries + [(IntKey(before.nextFree), Arr(rec))]
                  && (j != CUSTOM ==> Get(r.value, j) == Get(values, j)))
  {
    var slot := Slot(values, CUSTOM);
    if slot.Null? || slot == Bool(false) || slot.Arr? {
      var before := if slot.Arr? then slot.a else EmptyArray;
      GetSet(values, CUSTOM, Arr(Push(before, Arr(rec))), CUSTOM);
      GetSet(values, CUSTOM, Arr(Push(before, Arr(rec))), j);
    }
  }

  /** Each value entry has `value`, and has `enum` or `subtype` exactly when that is not `false`. */
  lemma EntryKeys(val: Value, subtype: Value)
    ensures var e := ValueEntry(val, subtype);
            Get(e, StrKey("value")) == Some(Destructure(val).0)
            && Get(e, StrKey("enum")) == (if Destructure(val).1 == Bool(false) then None else Some(Destructure(val).1))
            && Get(e, StrKey("subtype")) == (if subtype == Bool(false) then None else Some(subtype))
  {
    var value, enum := Destructure(val).0, Destructure(val).1;
    var vk, ek, sk := StrKey("value"), StrKey("enum"), StrKey("subtype");
    assert vk != ek && vk != sk && ek != sk by {
      assert "value"[0] != "enum"[0] && "value"[0] != "subtype"[0] && "enum"[0] != "subtype"[0];
    }
    var e := ValueEntry(val, subtype).entries;
    if enum != Bool(false) && subtype != Bool(false) {
      assert e == [(vk, value), (ek, enum), (sk, subtype)];
      assert e[1..] == [(ek, enum), (sk, subtype)] && e[1..][1..] == [(sk, subtype)];
      assert Find(e, ek) == Find(e[1..], ek) == Some(enum);
      assert Find(e, sk) == Find(e[1..], sk) == Find(e[1..][1..], sk) == Some(subtype);
    } else if enum != Bool(false) {
      assert e == [(vk, value), (ek, enum)];
      assert e[1..] == [(ek, enum)] && e[1..][1..] == [];
      assert Find(e, ek) == Find(e[1..], ek) == Some(enum);
      assert Find(e, sk) == Find(e[1..], sk) == Find(e[1..][1..], sk) == None;
    } else if subtype != Bool(false) {
      assert e == [(vk, value), (sk, subtype)];
      assert e[1..] == [(sk, subtype)] && e[1..][1..] == [];
      assert Find(e, ek) == Find(e[1..], ek) == Find(e[1..][1..], ek) == None;
      assert Find(e, sk) == Find(e[1..], sk) == Some(subtype);
    } else {
      assert e == [(vk, value)] && e[1..] == [];
      assert Find(e, ek) == Find(e[1..], ek) == None;
      assert Find(e, sk) == Find(e[1..], sk) == None;
    }
  }

  /**
   * With a non-array value, `addCustomField` builds one record whose `values`
   * list holds exactly one entry, made of `value` and of `enum` unless it is `false`.
   */
  lemma ScalarCustomField(id: Value, value: Value, enum: Value, subtype: Value)
    requires !value.Arr?
    ensures var vals := ListOf(EntryValues(PairsOf(value, enum), subtype));
            |vals.entries| == 1 && vals.entries[0].0 == IntKey(0) && vals.entries[0].1.Arr?
            && Get(vals.entries[0].1.a, StrKey("value")) == Some(value)
            && (Get(vals.entries[0].1.a, StrKey("enum")) == if enum == Bool(false) then None else Some(enum))
  {
    var pair := Arr(List2(value, enum));
    assert PairsOf(value, enum).entries == [(IntKey(0), pair)];
    assert pair.a.entries[1..] == [(IntKey(1), enum)];
    assert Find(pair.a.entries, IntKey(0)) == Some(value);
    assert Find(pair.a.entries, IntKey(1)) == Find(pair.a.entries[1..], IntKey(1)) == Some(enum);
    assert Destructure(pair) == (value, enum);
    EntryKeys(pair, subtype);
  }

  /** An array value yields one entry per element, in the array's order. */
  lemma ArrayCustomField(value: Value, enum: Value, subtype: Value, i: nat)
    requires value.Arr? && i < |value.a.entries|
    ensures var vals := ListOf(EntryValues(PairsOf(value, enum), subtype));
            |vals.entries| == |value.a.entries|
            && vals.entries[i] == (IntKey(i), Arr(ValueEntry(value.a.entries[i].1, subtype)))
  {
  }

  /** `addCustomMultiField` stores an array of values as given and wraps anything else in a list. */
  lemma MultiFieldValues(values: PArray, id: Value, vals: Value)
    requires SectionWf(values) && AddCustomMultiFieldTo(values, id, vals).Ok?
    ensures var section := Slot(AddCustomMultiFieldTo(values, id, vals).value, CUSTOM);
            section.Arr? && |section.a.entries| > 0
            && Last(section.a.entries).1
               == Arr(Record(id, if vals.Arr? then vals.a else PArray([(IntKey(0), vals)], 1)))
  {
    AppendKeepsRecords(values, Record(id, if vals.Arr? then vals.a else List1(vals)), CUSTOM);
  }

  function Last<T>(s: seq<T>): T
    requires |s| > 0
  {
    s[|s| - 1]
  }

  // ------------------------------------------------ as written in the source

  /**
   * `offsetGet` as written: the getter name is built with `Format::CamelCase`,
   * which `Format` does not declare, so the call fails before any value is read.
   */
  function OffsetGetAsWritten(values: PArray, o: string): Result<Value>
  {
    if Format.Declares("CamelCase") then Ok(ReadOffset(values, o))
    else Err(UndefinedMethod("Format::CamelCase"))
  }

  /**
   * `offsetSet` as written: after the existence check the setter name is
   * built with `Format::camelCase`, which `Format` does not declare.
   */
  function OffsetSetAsWritten(fields: PArray, values: PArray, o: string, v: Value): Result<PArray>
  {
    if !FieldExists(fields, o) then Err(ModelException(NOT_EXISTS + o))
    else if Format.Declares("camelCase") then SetOffset(fields, values, o, v)
    else Err(UndefinedMethod("Format::camelCase"))
  }

  /** As written, `offsetGet` fails on every offset. */
  lemma OffsetGetAsWrittenFails(values: PArray, o: string)
    ensures OffsetGetAsWritten(values, o) == Err(UndefinedMethod("Format::CamelCase"))
  {
    Format.CamelCaseUndeclared();
  }

  /** As written, `offsetSet` never writes: every offset that exists ends in the undefined call. */
  lemma OffsetSetAsWrittenFails(fields: PArray, values: PArray, o: string, v: Value)
    ensures OffsetSetAsWritten(fields, values, o, v)
            == if FieldExists(fields, o) then Err(UndefinedMethod("Format::camelCase"))
               else Err(ModelException(NOT_EXISTS + o))
  {
    Format.CamelCaseUndeclared();
  }

  /** A field listed under its own name: the setter-less path writes it, the code as written throws. */
  lemma OffsetSetCounterexample()
    ensures var fields := PArray([(StrKey("name"), Str("name"))], 0);
            SetOffset(fields, EmptyArray, "name", Str("x")) == Ok(PArray([(StrKey("name"), Str("x"))], 0))
            && OffsetSetAsWritten(fields, EmptyArray, "name", Str("x")) == Err(UndefinedMethod("Format::camelCase"))
  {
    var fields := PArray([(StrKey("name"), Str("name"))], 0);
    assert !IsCanonicalInt("name");
    assert LooseEquals("name", fields.entries[0].1);
    OffsetSetAsWrittenFails(fields, EmptyArray, "name", Str("x"));
  }
}
