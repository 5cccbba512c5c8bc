/** What each value becomes on the way to JSON and back, one by one. */
module JsonValues {
  import opened FlatSets
  import opened AnyTypes

  /** A C string ends before its first NUL, or not at all. */
  lemma {:induction false} CutAtNul(s: string)
    ensures Cut(s) <= s && '\0' !in Cut(s)
    ensures |Cut(s)| < |s| ==> s[|Cut(s)|] == '\0'
  {
    if s != "" && s[0] != '\0' {
      CutAtNul(s[1..]);
      assert s == [s[0]] + s[1..];
      assert Cut(s) == [s[0]] + Cut(s[1..]);
    }
  }

  /** Null, truth, whole numbers, doubles and strings keep their value and their kind. */
  lemma ScalarsOut(b: bool, i: int64, d: Double, s: string)
    ensures ToJson(Null) == JNull && ToJson(Bool(b)) == JBool(b) && ToJson(Int(i)) == JSint(i)
    ensures ToJson(Real(d)) == JReal(d)
    ensures var j := ToJson(Str(s));
            && j.JStr? && j.s <= s && '\0' !in j.s && (|j.s| < |s| ==> s[|j.s|] == '\0')
  {
    CutAtNul(s);
  }

  /** The way back; an unsigned number above the signed range is taken modulo 2 to the 64. */
  lemma ScalarsIn(b: bool, u: uint64, i: int64, d: Double, s: string)
    ensures Decode(JNull) == Ok(Null) && Decode(JBool(b)) == Ok(Bool(b)) && Decode(JSint(i)) == Ok(Int(i))
    ensures Decode(JReal(d)) == Ok(Real(d)) && Decode(JRaw).Err?
    ensures Decode(JUint(u)) == Ok(Int(if u < 0x8000_0000_0000_0000 then u else u - 0x1_0000_0000_0000_0000))
    ensures var r := Decode(JStr(s));
            && r.Ok? && r.value.Str? && r.value.s <= s && '\0' !in r.value.s
            && (|r.value.s| < |s| ==> s[|r.value.s|] == '\0')
  {
    CutAtNul(s);
  }

  lemma {:induction false} ItemsOut(items: seq<AnyElement>)
    ensures |ItemsToJson(items)| == |items|
    ensures forall k :: 0 <= k < |items| ==> ItemsToJson(items)[k] == ToJson(items[k])
  {
    if items != [] { ItemsOut(items[1..]); }
  }

  lemma {:induction false} FieldsOut(fields: seq<Field>)
    ensures |FieldsToJson(fields)| == |fields|
    ensures forall k :: 0 <= k < |fields| ==>
              FieldsToJson(fields)[k] == Member(Cut(fields[k].key), ToJson(fields[k].value))
  {
    if fields != [] { FieldsOut(fields[1..]); }
  }

  /** Arrays and objects go out element by element, in order, under their own names. */
  lemma ContainersOut(items: seq<AnyElement>, fields: seq<Field>)
    ensures var j := ToJson(Arr(items));
            j.JArr? && |j.elems| == |items| && forall k :: 0 <= k < |items| ==> j.elems[k] == ToJson(items[k])
    ensures var j := ToJson(Obj(fields));
            && j.JObj? && |j.members| == |fields|
            && forall k :: 0 <= k < |fields| ==>
                 j.members[k].name == Cut(fields[k].key) && j.members[k].val == ToJson(fields[k].value)
  {
    ItemsOut(items);
    FieldsOut(fields);
  }

  lemma {:induction false} ElemsIn(elems: seq<Json>, acc: seq<AnyElement>)
    ensures var r := DecodeElems(elems, acc);
            && (r.Ok? <==> forall k :: 0 <= k < |elems| ==> Decode(elems[k]).Ok?)
            && (r.Ok? ==> |r.value| == |acc| + |elems| && r.value[..|acc|] == acc &&
                          forall k :: 0 <= k < |elems| ==> Decode(elems[k]) == Ok(r.value[|acc| + k]))
  {
    if elems != [] && Decode(elems[0]).Ok? {
      var more := acc + [Decode(elems[0]).value];
      ElemsIn(elems[1..], more);
      var r := DecodeElems(elems, acc);
      assert forall k :: 0 < k < |elems| ==> elems[k] == elems[1..][k - 1];
      if r.Ok? {
        assert r.value[..|more|] == more;
        assert r.value[|acc|] == more[|acc|] && r.value[..|acc|] == more[..|acc|];
      } else {
        var k :| 0 <= k < |elems[1..]| && !Decode(elems[1..][k]).Ok?;
        assert !Decode(elems[k + 1]).Ok?;
      }
    }
  }

  /** An array comes in element by element, exactly when each of them does. */
  lemma ArrayIn(elems: seq<Json>)
    ensures var r := Decode(JArr(elems));
            && (r.Ok? <==> forall k :: 0 <= k < |elems| ==> Decode(elems[k]).Ok?)
            && (r.Ok? ==> r.value.Arr? && |r.value.items| == |elems| &&
                          forall k :: 0 <= k < |elems| ==> Decode(elems[k]) == Ok(r.value.items[k]))
  {
    ElemsIn(elems, []);
  }
}
