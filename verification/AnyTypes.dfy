/**
 The variant tree `AnyElement` and its exchange with yyjson's value tree.  Text parsing and writing belong to
 yyjson; what is modelled is the walk in each direction.
 */
module AnyTypes {
  import opened FlatSets

  type int64 = x: int | -0x8000_0000_0000_0000 <= x < 0x8000_0000_0000_0000
  type uint64 = x: int | 0 <= x < 0x1_0000_0000_0000_0000

  /** A C++ `double`: `Finite(0.0)` is the positive zero. */
  datatype Double = Finite(value: real) | NegZero | PosInf | NegInf | NaN

  /** Its `==`: the two zeros are equal, a NaN equals nothing. */
  predicate DoubleEq(x: Double, y: Double)
  {
    !x.NaN? && PositiveZero(x) == PositiveZero(y)
  }

  function PositiveZero(d: Double): Double
  {
    if d.NegZero? then Finite(0.0) else d
  }

  /** The seven alternatives of `VariantElement`.  A flat_map is its vector of pairs. */
  datatype AnyElement =
    | Null
    | Bool(b: bool)
    | Int(i: int64)
    | Real(d: Double)
    | Str(s: string)
    | Obj(fields: seq<Field>)
    | Arr(items: seq<AnyElement>)

  datatype Field = Field(key: string, value: AnyElement)

  /** yyjson's value tree.  `JRaw` stands for the value types that `decode_value` has no case for. */
  datatype Json =
    | JNull
    | JBool(b: bool)
    | JUint(u: uint64)
    | JSint(i: int64)
    | JReal(d: Double)
    | JStr(s: string)
    | JObj(members: seq<Member>)
    | JArr(elems: seq<Json>)
    | JRaw

  datatype Member = Member(name: string, val: Json)

  datatype Decoded<+T> = Ok(value: T) | Err(message: string)

  /** A flat_map: keys strictly increasing. */
  ghost predicate FlatMap(m: seq<Field>)
  {
    forall i, j :: 0 <= i < j < |m| ==> Less(m[i].key, m[j].key)
  }

  /** `map[k] = v` on a flat_map. */
  function Assign(m: seq<Field>, k: string, v: AnyElement): seq<Field>
  {
    if m == [] then [Field(k, v)]
    else if m[0].key == k then [Field(k, v)] + m[1..]
    else if Less(k, m[0].key) then [Field(k, v)] + m
    else [m[0]] + Assign(m[1..], k, v)
  }

  /** What a C string keeps of `s`: everything before the first NUL. */
  function Cut(s: string): string
  {
    if s == "" || s[0] == '\0' then "" else [s[0]] + Cut(s[1..])
  }

  predicate NulFree(s: string)
  {
    s == "" || (s[0] != '\0' && NulFree(s[1..]))
  }

  /** `operator==`: same alternative, equal values; the sequences compare pairwise. */
  predicate Eq(a: AnyElement, b: AnyElement)
    decreases a, 1
  {
    match (a, b)
    case (Null, Null) => true
    case (Bool(x), Bool(y)) => x == y
    case (Int(x), Int(y)) => x == y
    case (Real(x), Real(y)) => DoubleEq(x, y)
    case (Str(x), Str(y)) => x == y
    case (Obj(x), Obj(y)) => EqFields(x, y)
    case (Arr(x), Arr(y)) => EqItems(x, y)
    case _ => false
  }

  predicate EqFields(a: seq<Field>, b: seq<Field>)
    decreases a, 0
  {
    |a| == |b| && (a == [] || (a[0].key == b[0].key && Eq(a[0].value, b[0].value) && EqFields(a[1..], b[1..])))
  }

  predicate EqItems(a: seq<AnyElement>, b: seq<AnyElement>)
    decreases a, 0
  {
    |a| == |b| && (a == [] || (Eq(a[0], b[0]) && EqItems(a[1..], b[1..])))
  }

  // ----- specification of the two walks -----

  function ToJson(e: AnyElement): Json
    decreases e, 1
  {
    match e
    case Null => JNull
    case Bool(b) => JBool(b)
    case Int(i) => JSint(i)
    case Real(d) => JReal(d)
    case Str(s) => JStr(Cut(s))
    case Obj(fields) => JObj(FieldsToJson(fields))
    case Arr(items) => JArr(ItemsToJson(items))
  }

  function FieldsToJson(fields: seq<Field>): seq<Member>
    decreases fields, 0
  {
    if fields == [] then [] else [Member(Cut(fields[0].key), ToJson(fields[0].value))] + FieldsToJson(fields[1..])
  }

  function ItemsToJson(items: seq<AnyElement>): seq<Json>
    decreases items, 0
  {
    if items == [] then [] else [ToJson(items[0])] + ItemsToJson(items[1..])
  }

  /** `yyjson_get_sint` reinterprets the 64 bits of an unsigned number. */
  function AsSigned(u: uint64): int64
  {
    if u < 0x8000_0000_0000_0000 then u else u - 0x1_0000_0000_0000_0000
  }

  function Decode(j: Json): Decoded<AnyElement>
    decreases j, 1
  {
    match j
    case JNull => Ok(Null)
    case JBool(b) => Ok(Bool(b))
    case JUint(u) => Ok(Int(AsSigned(u)))
    case JSint(i) => Ok(Int(i))
    case JReal(d) => Ok(Real(d))
    case JStr(s) => Ok(Str(Cut(s)))
    case JObj(members) =>
      (match DecodeMembers(members, [])
       case Ok(fields) => Ok(Obj(fields))
       case Err(m) => Err(m))
    case JArr(elems) =>
      (match DecodeElems(elems, [])
       case Ok(items) => Ok(Arr(items))
       case Err(m) => Err(m))
    case JRaw => Err("Unknown JSON type")
  }

  function DecodeMembers(members: seq<Member>, acc: seq<Field>)
    : Decoded<seq<Field>>
    decreases members, 0
  {
    if members == [] then Ok(acc)
    else match Decode(members[0].val)
      case Err(m) => Err(m)
      case Ok(v) => DecodeMembers(members[1..], Assign(acc, Cut(members[0].name), v))
  }

  function DecodeElems(elems: seq<Json>, acc: seq<AnyElement>): Decoded<seq<AnyElement>>
    decreases elems, 0
  {
    if elems == [] then Ok(acc)
    else match Decode(elems[0])
      case Err(m) => Err(m)
      case Ok(v) => DecodeElems(elems[1..], acc + [v])
  }

  // ----- the source's own walks -----

  /** `AnyElement::to_yyjson`: containers are filled by appending in a loop. */
  method ToYyjson(elem: AnyElement) returns (val: Json)
    ensures val == ToJson(elem)
    decreases elem
  {
    match elem {
      case Null => val := JNull;
      case Bool(b) => val := JBool(b);
      case Int(i) => val := JSint(i);
      case Real(d) => val := JReal(d);
      case Str(s) => val := JStr(Cut(s));
      case Obj(objMap) =>
        var obj: seq<Member> := [];
        for k := 0 to |objMap|
          invariant FieldsToJson(objMap) == obj + FieldsToJson(objMap[k..])
        {
          var value := ToYyjson(objMap[k].value);
          assert objMap[k..][1..] == objMap[k + 1..];
          obj := obj + [Member(Cut(objMap[k].key), value)];
        }
        val := JObj(obj);
      case Arr(arrVec) =>
        var arr: seq<Json> := [];
        for k := 0 to |arrVec|
          invariant ItemsToJson(arrVec) == arr + ItemsToJson(arrVec[k..])
        {
          var value := ToYyjson(arrVec[k]);
          assert arrVec[k..][1..] == arrVec[k + 1..];
          arr := arr + [value];
        }
        val := JArr(arr);
    }
  }

  /** `decode_value`. */
  method DecodeValue(value: Json) returns (r: Decoded<AnyElement>)
    ensures r == Decode(value)
    decreases value, 1
  {
    match value {
      case JNull => r := Ok(Null);
      case JBool(b) => r := Ok(Bool(b));
      case JUint(u) => r := Ok(Int(AsSigned(u)));
      case JSint(i) => r := Ok(Int(i));
      case JReal(d) => r := Ok(Real(d));
      case JStr(s) => r := Ok(Str(Cut(s)));
      case JArr(elems) =>
        var items := DecodeArray(elems);
        r := match items case Ok(v) => Ok(Arr(v)) case Err(m) => Err(m);
      case JObj(members) =>
        var dict := DecodeObject(members);
        r := match dict case Ok(v) => Ok(Obj(v)) case Err(m) => Err(m);
      case JRaw => r := Err("Unknown JSON type");
    }
  }

  /** `decode_array`. */
  method DecodeArray(elems: seq<Json>) returns (r: Decoded<seq<AnyElement>>)
    ensures r == DecodeElems(elems, [])
    decreases elems, 0
  {
    var result: seq<AnyElement> := [];
    for idx := 0 to |elems|
      invariant DecodeElems(elems, []) == DecodeElems(elems[idx..], result)
    {
      var child := DecodeValue(elems[idx]);
      assert elems[idx..][1..] == elems[idx + 1..];
      if child.Err? { return Err(child.message); }
      result := result + [child.value];
    }
    r := Ok(result);
  }

  /** `decode_object`. */
  method DecodeObject(members: seq<Member>) returns (r: Decoded<seq<Field>>)
    ensures r == DecodeMembers(members, [])
    decreases members, 0
  {
    var dict: seq<Field> := [];
    for idx := 0 to |members|
      invariant DecodeMembers(members, []) == DecodeMembers(members[idx..], dict)
    {
      var element := DecodeValue(members[idx].val);
      assert members[idx..][1..] == members[idx + 1..];
      if element.Err? { return Err(element.message); }
      dict := Assign(dict, Cut(members[idx].name), element.value);
    }
    r := Ok(dict);
  }
}
