/** What the two walks of `AnyTypes` promise together. */
module JsonRoundTrip {
  import opened FlatSets
  import opened AnyTypes

  /** Every flat_map inside `e` is one. */
  ghost predicate Formed(e: AnyElement)
    decreases e, 1
  {
    match e
    case Obj(fields) => FlatMap(fields) && FormedFields(fields)
    case Arr(items) => FormedItems(items)
    case _ => true
  }

  ghost predicate FormedFields(fields: seq<Field>)
    decreases fields, 0
  {
    fields == [] || (Formed(fields[0].value) && FormedFields(fields[1..]))
  }

  ghost predicate FormedItems(items: seq<AnyElement>)
    decreases items, 0
  {
    items == [] || (Formed(items[0]) && FormedItems(items[1..]))
  }

  /** No string and no key of `e` holds a NUL character. */
  predicate NoNul(e: AnyElement)
    decreases e, 1
  {
    match e
    case Str(s) => NulFree(s)
    case Obj(fields) => NoNulFields(fields)
    case Arr(items) => NoNulItems(items)
    case _ => true
  }

  predicate NoNulFields(fields: seq<Field>)
    decreases fields, 0
  {
    fields == [] || (NulFree(fields[0].key) && NoNul(fields[0].value) && NoNulFields(fields[1..]))
  }

  predicate NoNulItems(items: seq<AnyElement>)
    decreases items, 0
  {
    items == [] || (NoNul(items[0]) && NoNulItems(items[1..]))
  }

  /** No number of `e` is a NaN. */
  predicate NoNaN(e: AnyElement)
    decreases e, 1
  {
    match e
    case Real(d) => !d.NaN?
    case Obj(fields) => NoNaNFields(fields)
    case Arr(items) => NoNaNItems(items)
    case _ => true
  }

  predicate NoNaNFields(fields: seq<Field>)
    decreases fields, 0
  {
    fields == [] || (NoNaN(fields[0].value) && NoNaNFields(fields[1..]))
  }

  predicate NoNaNItems(items: seq<AnyElement>)
    decreases items, 0
  {
    items == [] || (NoNaN(items[0]) && NoNaNItems(items[1..]))
  }

  /** No value of a type that the decoder refuses. */
  predicate NoRaw(j: Json)
    decreases j, 1
  {
    match j
    case JRaw => false
    case JObj(members) => NoRawMembers(members)
    case JArr(elems) => NoRawElems(elems)
    case _ => true
  }

  predicate NoRawMembers(members: seq<Member>)
    decreases members, 0
  {
    members == [] || (NoRaw(members[0].val) && NoRawMembers(members[1..]))
  }

  predicate NoRawElems(elems: seq<Json>)
    decreases elems, 0
  {
    elems == [] || (NoRaw(elems[0]) && NoRawElems(elems[1..]))
  }

  // ----- strings and flat maps -----

  lemma {:induction false} CutNulFree(s: string)
    ensures NulFree(Cut(s))
    ensures NulFree(s) ==> Cut(s) == s
  {
    if s != "" && s[0] != '\0' {
      CutNulFree(s[1..]);
      assert Cut(s)[1..] == Cut(s[1..]);
      assert s == [s[0]] + s[1..];
    }
  }

  lemma {:induction false} AssignKeepsOrder(m: seq<Field>, k: string, v: AnyElement)
    requires FlatMap(m)
    ensures FlatMap(Assign(m, k, v))
    ensures forall p :: p in Assign(m, k, v) ==> p == Field(k, v) || (p in m && p.key != k)
  {
    if m != [] {
      if m[0].key == k {
        LessIrreflexive(k);
        forall p | p in m[1..] ensures p in m && p.key != k {
          var i :| 0 <= i < |m[1..]| && m[1..][i] == p;
          assert m[i + 1] == p;
        }
      } else if Less(k, m[0].key) {
        forall j | 0 <= j < |m| ensures Less(k, m[j].key) && m[j].key != k {
          if j > 0 { LessTransitive(k, m[0].key, m[j].key); }
          LessIrreflexive(k);
        }
      } else {
        LessTotal(k, m[0].key);
        AssignKeepsOrder(m[1..], k, v);
        var r := Assign(m[1..], k, v);
        forall j | 0 <= j < |r| ensures Less(m[0].key, r[j].key) {
          assert r[j] in r;
          if r[j] != Field(k, v) {
            var i :| 0 <= i < |m[1..]| && m[1..][i] == r[j];
            assert m[i + 1] == r[j];
          }
        }
      }
    }
  }

  lemma {:induction false} AssignAtEnd(m: seq<Field>, k: string, v: AnyElement)
    requires FlatMap(m + [Field(k, v)])
    ensures Assign(m, k, v) == m + [Field(k, v)]
  {
    if m != [] {
      var all := m + [Field(k, v)];
      assert all[0] == m[0] && all[|m|] == Field(k, v) && Less(m[0].key, k);
      LessIrreflexive(k);
      if Less(k, m[0].key) { LessTransitive(k, m[0].key, k); }
      assert m[1..] + [Field(k, v)] == all[1..];
      AssignAtEnd(m[1..], k, v);
    }
  }

  // ----- decoding what was encoded -----

  lemma {:induction false} RoundTripExact(e: AnyElement)
    requires Formed(e) && NoNul(e)
    ensures Decode(ToJson(e)) == Ok(e)
    decreases e, 1
  {
    match e
    case Str(s) => CutNulFree(s);
    case Obj(fields) => { assert [] + fields == fields; RoundTripFields(fields, []); }
    case Arr(items) => { assert [] + items == items; RoundTripItems(items, []); }
    case _ =>
  }

  lemma {:induction false} RoundTripFields(fields: seq<Field>, acc: seq<Field>)
    requires FlatMap(acc + fields) && FormedFields(fields) && NoNulFields(fields)
    ensures DecodeMembers(FieldsToJson(fields), acc) == Ok(acc + fields)
    decreases fields, 0
  {
    if fields == [] {
      assert acc + fields == acc;
    } else {
      RoundTripExact(fields[0].value);
      CutNulFree(fields[0].key);
      var acc' := acc + [fields[0]];
      assert acc' + fields[1..] == acc + fields;
      assert FlatMap(acc') by {
        forall i, j | 0 <= i < j < |acc'| ensures Less(acc'[i].key, acc'[j].key) {
          assert acc'[i] == (acc + fields)[i] && acc'[j] == (acc + fields)[j];
        }
      }
      AssignAtEnd(acc, fields[0].key, fields[0].value);
      RoundTripFields(fields[1..], acc');
      assert FieldsToJson(fields)[1..] == FieldsToJson(fields[1..]);
    }
  }

  lemma {:induction false} RoundTripItems(items: seq<AnyElement>, acc: seq<AnyElement>)
    requires FormedItems(items) && NoNulItems(items)
    ensures DecodeElems(ItemsToJson(items), acc) == Ok(acc + items)
    decreases items, 0
  {
    if items == [] {
      assert acc + items == acc;
    } else {
      RoundTripExact(items[0]);
      assert acc + [items[0]] + items[1..] == acc + items;
      RoundTripItems(items[1..], acc + [items[0]]);
      assert ItemsToJson(items)[1..] == ItemsToJson(items[1..]);
    }
  }

  // ----- what decoding returns -----

  /** Decoding succeeds exactly on trees without an unknown value; the result is formed and free of NULs. */
  lemma {:induction false} DecodeShape(j: Json)
    ensures Decode(j).Ok? <==> NoRaw(j)
    ensures Decode(j).Ok? ==> Formed(Decode(j).value) && NoNul(Decode(j).value)
    decreases j, 1
  {
    match j
    case JStr(s) => CutNulFree(s);
    case JObj(members) => DecodeMembersShape(members, []);
    case JArr(elems) => DecodeElemsShape(elems, []);
    case _ =>
  }

  lemma {:induction false} AssignShape(m: seq<Field>, k: string, v: AnyElement)
    requires FormedFields(m) && NoNulFields(m) && Formed(v) && NoNul(v) && NulFree(k)
    ensures FormedFields(Assign(m, k, v)) && NoNulFields(Assign(m, k, v))
  {
    var r := Assign(m, k, v);
    if m == [] {
      assert r[1..] == [];
    } else if m[0].key == k {
      assert r[1..] == m[1..];
    } else if Less(k, m[0].key) {
      assert r[1..] == m;
    } else {
      AssignShape(m[1..], k, v);
      assert r[1..] == Assign(m[1..], k, v);
    }
  }

  lemma {:induction false} DecodeMembersShape(members: seq<Member>, acc: seq<Field>)
    requires FlatMap(acc) && FormedFields(acc) && NoNulFields(acc)
    ensures DecodeMembers(members, acc).Ok? <==> NoRawMembers(members)
    ensures DecodeMembers(members, acc).Ok? ==>
              var r := DecodeMembers(members, acc).value; FlatMap(r) && FormedFields(r) && NoNulFields(r)
    decreases members, 0
  {
    if members != [] {
      DecodeShape(members[0].val);
      match Decode(members[0].val)
      case Err(_) =>
      case Ok(v) => {
        var k := Cut(members[0].name);
        CutNulFree(members[0].name);
        AssignKeepsOrder(acc, k, v);
        AssignShape(acc, k, v);
        DecodeMembersShape(members[1..], Assign(acc, k, v));
      }
    }
  }

  lemma {:induction false} ItemsShapeSnoc(items: seq<AnyElement>, v: AnyElement)
    requires FormedItems(items) && NoNulItems(items) && Formed(v) && NoNul(v)
    ensures FormedItems(items + [v]) && NoNulItems(items + [v])
  {
    var r := items + [v];
    if items == [] {
      assert r[1..] == [];
    } else {
      ItemsShapeSnoc(items[1..], v);
      assert r[1..] == items[1..] + [v];
    }
  }

  lemma {:induction false} DecodeElemsShape(elems: seq<Json>, acc: seq<AnyElement>)
    requires FormedItems(acc) && NoNulItems(acc)
    ensures DecodeElems(elems, acc).Ok? <==> NoRawElems(elems)
    ensures DecodeElems(elems, acc).Ok? ==>
              var r := DecodeElems(elems, acc).value; FormedItems(r) && NoNulItems(r)
    decreases elems, 0
  {
    if elems != [] {
      DecodeShape(elems[0]);
      match Decode(elems[0])
      case Err(_) =>
      case Ok(v) => { ItemsShapeSnoc(acc, v); DecodeElemsShape(elems[1..], acc + [v]); }
    }
  }

  lemma {:induction false} EncodeHasNoRaw(e: AnyElement)
    ensures NoRaw(ToJson(e))
    decreases e, 1
  {
    match e
    case Obj(fields) => EncodeFieldsHaveNoRaw(fields);
    case Arr(items) => EncodeItemsHaveNoRaw(items);
    case _ =>
  }

  lemma {:induction false} EncodeFieldsHaveNoRaw(fields: seq<Field>)
    ensures NoRawMembers(FieldsToJson(fields))
    decreases fields, 0
  {
    if fields != [] {
      EncodeHasNoRaw(fields[0].value);
      EncodeFieldsHaveNoRaw(fields[1..]);
      assert FieldsToJson(fields)[1..] == FieldsToJson(fields[1..]);
    }
  }

  lemma {:induction false} EncodeItemsHaveNoRaw(items: seq<AnyElement>)
    ensures NoRawElems(ItemsToJson(items))
    decreases items, 0
  {
    if items != [] {
      EncodeHasNoRaw(items[0]);
      EncodeItemsHaveNoRaw(items[1..]);
      assert ItemsToJson(items)[1..] == ItemsToJson(items[1..]);
    }
  }

  // ----- equality -----

  /** The value with every zero positive. */
  function Unsigned(e: AnyElement): AnyElement
    decreases e, 1
  {
    match e
    case Real(d) => Real(PositiveZero(d))
    case Obj(fields) => Obj(UnsignedFields(fields))
    case Arr(items) => Arr(UnsignedItems(items))
    case _ => e
  }

  function UnsignedFields(fields: seq<Field>): (r: seq<Field>)
    ensures |r| == |fields|
    decreases fields, 0
  {
    if fields == [] then []
    else [Field(fields[0].key, Unsigned(fields[0].value))] + UnsignedFields(fields[1..])
  }

  function UnsignedItems(items: seq<AnyElement>): (r: seq<AnyElement>)
    ensures |r| == |items|
    decreases items, 0
  {
    if items == [] then [] else [Unsigned(items[0])] + UnsignedItems(items[1..])
  }

  /** Two values are equal exactly when they are the same up to the signs of zeros and hold no NaN. */
  lemma {:induction false} EqIsSame(a: AnyElement, b: AnyElement)
    ensures Eq(a, b) <==> Unsigned(a) == Unsigned(b) && NoNaN(a)
    decreases a, 1
  {
    match (a, b)
    case (Obj(x), Obj(y)) => EqFieldsSame(x, y);
    case (Arr(x), Arr(y)) => EqItemsSame(x, y);
    case _ =>
  }

  lemma {:induction false} EqFieldsSame(a: seq<Field>, b: seq<Field>)
    ensures EqFields(a, b) <==> UnsignedFields(a) == UnsignedFields(b) && NoNaNFields(a)
    decreases a, 0
  {
    if |a| == |b| && a != [] {
      EqIsSame(a[0].value, b[0].value);
      EqFieldsSame(a[1..], b[1..]);
      var u, v := UnsignedFields(a), UnsignedFields(b);
      assert u[1..] == UnsignedFields(a[1..]) && v[1..] == UnsignedFields(b[1..]);
      if u[0] == v[0] && u[1..] == v[1..] { assert u == [u[0]] + u[1..] && v == [v[0]] + v[1..]; }
    }
  }

  lemma {:induction false} EqItemsSame(a: seq<AnyElement>, b: seq<AnyElement>)
    ensures EqItems(a, b) <==> UnsignedItems(a) == UnsignedItems(b) && NoNaNItems(a)
    decreases a, 0
  {
    if |a| == |b| && a != [] {
      EqIsSame(a[0], b[0]);
      EqItemsSame(a[1..], b[1..]);
      var u, v := UnsignedItems(a), UnsignedItems(b);
      assert u[1..] == UnsignedItems(a[1..]) && v[1..] == UnsignedItems(b[1..]);
      if u[0] == v[0] && u[1..] == v[1..] { assert u == [u[0]] + u[1..] && v == [v[0]] + v[1..]; }
    }
  }

  /** The signs of zeros decide neither condition of the round trip. */
  lemma {:induction false} UnsignedShape(e: AnyElement)
    ensures (NoNul(Unsigned(e)) <==> NoNul(e)) && (NoNaN(Unsigned(e)) <==> NoNaN(e))
    decreases e, 1
  {
    match e
    case Obj(fields) => UnsignedFieldsShape(fields);
    case Arr(items) => UnsignedItemsShape(items);
    case _ =>
  }

  lemma {:induction false} UnsignedFieldsShape(fields: seq<Field>)
    ensures var u := UnsignedFields(fields);
            (NoNulFields(u) <==> NoNulFields(fields)) && (NoNaNFields(u) <==> NoNaNFields(fields))
    decreases fields, 0
  {
    if fields != [] {
      UnsignedShape(fields[0].value);
      UnsignedFieldsShape(fields[1..]);
      assert UnsignedFields(fields)[1..] == UnsignedFields(fields[1..]);
    }
  }

  lemma {:induction false} UnsignedItemsShape(items: seq<AnyElement>)
    ensures var u := UnsignedItems(items);
            (NoNulItems(u) <==> NoNulItems(items)) && (NoNaNItems(u) <==> NoNaNItems(items))
    decreases items, 0
  {
    if items != [] {
      UnsignedShape(items[0]);
      UnsignedItemsShape(items[1..]);
      assert UnsignedItems(items)[1..] == UnsignedItems(items[1..]);
    }
  }

  // ----- main results -----

  /** Encoding then decoding never fails, and gives back an equal value exactly when there is no NUL and no NaN. */
  lemma RoundTrip(e: AnyElement)
    requires Formed(e)
    ensures Decode(ToJson(e)).Ok?
    ensures Eq(Decode(ToJson(e)).value, e) <==> NoNul(e) && NoNaN(e)
  {
    EncodeHasNoRaw(e);
    DecodeShape(ToJson(e));
    var d := Decode(ToJson(e)).value;
    EqIsSame(d, e);
    UnsignedShape(d);
    UnsignedShape(e);
    if NoNul(e) { RoundTripExact(e); }
  }

  /** Decoding normalises: encoding the result and decoding again returns that very result. */
  lemma Normalised(j: Json)
    requires NoRaw(j)
    ensures Decode(j).Ok? && Decode(ToJson(Decode(j).value)) == Decode(j)
  {
    DecodeShape(j);
    RoundTripExact(Decode(j).value);
  }

  /** The last member whose (cut) name is `k`. */
  function LastNamed(members: seq<Member>, k: string): Decoded<Json>
  {
    if members == [] then Err("absent")
    else
      var n := |members| - 1;
      if Cut(members[n].name) == k then Ok(members[n].val) else LastNamed(members[..n], k)
  }

  lemma {:induction false} AssignLookup(m: seq<Field>, k: string, v: AnyElement)
    ensures Field(k, v) in Assign(m, k, v)
    ensures forall p :: p in m && p.key != k ==> p in Assign(m, k, v)
  {
    if m != [] {
      assert m == [m[0]] + m[1..];
      if m[0].key != k && !Less(k, m[0].key) { AssignLookup(m[1..], k, v); }
    }
  }

  lemma {:induction false} DecodeMembersSnoc(
    members: seq<Member>, last: Member, acc: seq<Field>)
    ensures DecodeMembers(members + [last], acc) ==
            (match DecodeMembers(members, acc)
             case Err(m) => Err(m)
             case Ok(fields) => DecodeMembers([last], fields))
    decreases members
  {
    var all := members + [last];
    if members == [] {
      assert all == [last];
    } else {
      assert all[0] == members[0] && all[1..] == members[1..] + [last];
      match Decode(members[0].val)
      case Err(_) =>
      case Ok(v) => DecodeMembersSnoc(members[1..], last, Assign(acc, Cut(members[0].name), v));
    }
  }

  /** The last of several members with the same name wins, and no other field appears. */
  lemma {:induction false} LastDuplicateWins(members: seq<Member>, k: string)
    requires NoRawMembers(members)
    ensures DecodeMembers(members, []).Ok?
    ensures forall v :: Field(k, v) in DecodeMembers(members, []).value <==>
                        LastNamed(members, k).Ok? && Decode(LastNamed(members, k).value) == Ok(v)
    decreases |members|
  {
    DecodeMembersShape(members, []);
    if members != [] {
      var n := |members| - 1;
      var init, last := members[..n], members[n];
      assert members == init + [last];
      DecodeMembersSnoc(init, last, []);
      assert NoRawMembers(init) by { DecodeMembersShape(init, []); }
      LastDuplicateWins(init, k);
      DecodeMembersShape(init, []);
      var fields := DecodeMembers(init, []).value;
      assert [last][1..] == [];
      var w := Decode(last.val).value;
      AssignKeepsOrder(fields, Cut(last.name), w);
      AssignLookup(fields, Cut(last.name), w);
    }
  }
}
