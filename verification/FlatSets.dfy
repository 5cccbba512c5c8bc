/** Identifiers, and boost's `flat_set<std::string>`: a vector kept strictly increasing. */
module FlatSets {

  type Id = string

  /** `std::string::operator<`: lexicographic, a proper prefix comes first. */
  predicate Less(a: Id, b: Id)
  {
    b != [] && (a == [] || a[0] < b[0] || (a[0] == b[0] && Less(a[1..], b[1..])))
  }

  lemma {:induction false} LessIrreflexive(a: Id)
    ensures !Less(a, a)
  {
    if a != [] { LessIrreflexive(a[1..]); }
  }

  lemma {:induction false} LessTransitive(a: Id, b: Id, c: Id)
    requires Less(a, b) && Less(b, c)
    ensures Less(a, c)
  {
    if a != [] && a[0] == b[0] && b[0] == c[0] {
      LessTransitive(a[1..], b[1..], c[1..]);
    }
  }

  lemma {:induction false} LessTotal(a: Id, b: Id)
    ensures a == b || Less(a, b) || Less(b, a)
  {
    if a != [] && b != [] && a[0] == b[0] {
      LessTotal(a[1..], b[1..]);
      if a[1..] == b[1..] { assert a == [a[0]] + a[1..] && b == [b[0]] + b[1..]; }
    }
  }

  ghost predicate Sorted(s: seq<Id>)
  {
    forall i, j :: 0 <= i < j < |s| ==> Less(s[i], s[j])
  }

  ghost predicate NoDup(s: seq<Id>)
  {
    forall i, j :: 0 <= i < j < |s| ==> s[i] != s[j]
  }

  lemma SortedNoDup(s: seq<Id>)
    requires Sorted(s)
    ensures NoDup(s)
  {
    forall i, j | 0 <= i < j < |s| ensures s[i] != s[j] {
      LessIrreflexive(s[i]);
    }
  }

  /** `flat_set::insert`. */
  function Insert(s: seq<Id>, x: Id): seq<Id>
  {
    if s == [] then [x]
    else if s[0] == x then s
    else if Less(x, s[0]) then [x] + s
    else [s[0]] + Insert(s[1..], x)
  }

  lemma {:induction false} InsertElements(s: seq<Id>, x: Id)
    ensures forall y :: y in Insert(s, x) <==> y in s || y == x
    ensures |Insert(s, x)| <= |s| + 1
  {
    if s != [] && s[0] != x && !Less(x, s[0]) {
      InsertElements(s[1..], x);
      assert s == [s[0]] + s[1..];
    }
  }

  lemma {:induction false} InsertSorted(s: seq<Id>, x: Id)
    requires Sorted(s)
    ensures Sorted(Insert(s, x))
  {
    if s != [] && s[0] != x {
      if Less(x, s[0]) {
        forall j | 0 <= j < |s| ensures Less(x, s[j]) {
          if j > 0 { LessTransitive(x, s[0], s[j]); }
        }
      } else {
        LessTotal(x, s[0]);
        InsertSorted(s[1..], x);
        InsertElements(s[1..], x);
        var r := Insert(s[1..], x);
        forall j | 0 <= j < |r| ensures Less(s[0], r[j]) {
          assert r[j] in r;
          if r[j] != x { var k :| 0 <= k < |s[1..]| && s[1..][k] == r[j]; assert r[j] == s[k + 1]; }
        }
      }
    }
  }

  /** `flat_set::erase` and the erase/remove idiom: drops every occurrence. */
  function Without(s: seq<Id>, x: Id): seq<Id>
  {
    if s == [] then [] else (if s[0] == x then [] else [s[0]]) + Without(s[1..], x)
  }

  lemma {:induction false} WithoutElements(s: seq<Id>, x: Id)
    ensures forall y :: y in Without(s, x) <==> y in s && y != x
    ensures |Without(s, x)| <= |s|
  {
    if s != [] {
      WithoutElements(s[1..], x);
      assert s == [s[0]] + s[1..];
    }
  }

  lemma {:induction false} WithoutSorted(s: seq<Id>, x: Id)
    requires Sorted(s)
    ensures Sorted(Without(s, x))
  {
    if s != [] {
      WithoutSorted(s[1..], x);
      WithoutElements(s[1..], x);
      var r := Without(s[1..], x);
      forall j | 0 <= j < |r| ensures Less(s[0], r[j]) {
        assert r[j] in r;
        var k :| 0 <= k < |s[1..]| && s[1..][k] == r[j];
        assert r[j] == s[k + 1];
      }
    }
  }

  /** The first element of the range other than `x`; the empty id when there is none. */
  function FirstOther(s: seq<Id>, x: Id): Id
  {
    if s == [] then "" else if s[0] != x then s[0] else FirstOther(s[1..], x)
  }

  /** Over a flat_set the first other element is the least one. */
  lemma {:induction false} FirstOtherIsLeast(s: seq<Id>, x: Id)
    requires exists y :: y in s && y != x
    ensures FirstOther(s, x) in s && FirstOther(s, x) != x
    ensures Sorted(s) ==> forall y :: y in s && y != x && y != FirstOther(s, x) ==> Less(FirstOther(s, x), y)
  {
    hide Less;
    assert s == [s[0]] + s[1..];
    if s[0] == x {
      var y :| y in s && y != x;
      assert y in s[1..];
      FirstOtherIsLeast(s[1..], x);
    } else if Sorted(s) {
      forall y | y in s && y != s[0] ensures Less(s[0], y) {
        var k :| 0 <= k < |s| && s[k] == y;
      }
    }
  }

  /** `order` is one possible iteration order over the container with elements `keys`. */
  ghost predicate Enumerates(order: seq<Id>, keys: set<Id>)
  {
    NoDup(order) && forall x :: x in order <==> x in keys
  }

  lemma {:induction false} NoDupSize(s: seq<Id>, keys: set<Id>)
    requires NoDup(s) && forall x :: x in s <==> x in keys
    ensures |s| == |keys|
  {
    if s == [] {
      assert keys == {};
    } else {
      assert s == [s[0]] + s[1..];
      assert s[0] !in s[1..];
      NoDupSize(s[1..], keys - {s[0]});
    }
  }
}
