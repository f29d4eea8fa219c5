/**
 * The canonical encoding createLand writes: the keys sorted
 * (sort-keys-recursive), then written without whitespace
 * (json-stringify-deterministic). A land record is flat, so sorting the top
 * level is sorting every level.
 */
module CanonicalJson {
  import opened Wrappers
  import opened JsonObject
  import opened JsonCodec

  /** Lexicographic order on strings, character by character. */
  predicate Less(a: string, b: string)
  {
    if a == [] then b != []
    else if b == [] then false
    else if a[0] != b[0] then a[0] < b[0]
    else Less(a[1..], b[1..])
  }

  lemma {:induction false} LessIrreflexive(a: string)
    ensures !Less(a, a)
  {
    if a != [] {
      LessIrreflexive(a[1..]);
    }
  }

  lemma {:induction false} LessTransitive(a: string, b: string, c: string)
    requires Less(a, b) && Less(b, c)
    ensures Less(a, c)
  {
    if a != [] && b != [] && c != [] && a[0] == b[0] == c[0] {
      LessTransitive(a[1..], b[1..], c[1..]);
    }
  }

  lemma {:induction false} LessTotal(a: string, b: string)
    requires a != b
    ensures Less(a, b) || Less(b, a)
  {
    if a != [] && b != [] && a[0] == b[0] {
      assert a == [a[0]] + a[1..] && b == [b[0]] + b[1..];
      LessTotal(a[1..], b[1..]);
    }
  }

  lemma LessAsymmetric(a: string, b: string)
    requires Less(a, b)
    ensures !Less(b, a)
  {
    if Less(b, a) {
      LessTransitive(a, b, a);
      LessIrreflexive(a);
    }
  }

  /** Keys in strictly ascending order, so also distinct. */
  predicate SortedKeys(o: Obj)
  {
    forall i, j :: 0 <= i < j < |o| ==> Less(o[i].key, o[j].key)
  }

  lemma SortedKeysDistinct(o: Obj)
    requires SortedKeys(o)
    ensures DistinctKeys(o)
  {
    forall i, j | 0 <= i < j < |o| ensures o[i].key != o[j].key {
      LessIrreflexive(o[i].key);
    }
  }

  /** Insert m before the first member whose key is not below its own. */
  function Insert(m: Member, o: Obj): Obj
  {
    if o == [] then [m]
    else if Less(o[0].key, m.key) then [o[0]] + Insert(m, o[1..])
    else [m] + o
  }

  /** sortKeysRecursive on a flat object: the members ordered by key. */
  function SortKeys(o: Obj): Obj
  {
    if o == [] then [] else Insert(o[0], SortKeys(o[1..]))
  }

  /** stringify(sortKeysRecursive(o)). */
  function Canonical(o: Obj): string
  {
    Stringify(SortKeys(o))
  }

  /** Insertion adds exactly the one member. */
  lemma {:induction false} InsertPermutes(m: Member, o: Obj)
    ensures multiset(Insert(m, o)) == multiset(o) + multiset{m}
  {
    if o != [] {
      assert o == [o[0]] + o[1..];
      if Less(o[0].key, m.key) {
        InsertPermutes(m, o[1..]);
      }
    }
  }

  /** Sorting by key is a permutation of the members. */
  lemma {:induction false} SortKeysPermutes(o: Obj)
    ensures multiset(SortKeys(o)) == multiset(o)
  {
    if o != [] {
      assert o == [o[0]] + o[1..];
      SortKeysPermutes(o[1..]);
      InsertPermutes(o[0], SortKeys(o[1..]));
    }
  }

  /** A lower bound of m and of every member of o bounds every member of the insertion. */
  lemma {:induction false} InsertAbove(b: string, m: Member, o: Obj)
    requires Less(b, m.key)
    requires forall i :: 0 <= i < |o| ==> Less(b, o[i].key)
    ensures forall j :: 0 <= j < |Insert(m, o)| ==> Less(b, Insert(m, o)[j].key)
  {
    if o != [] && Less(o[0].key, m.key) {
      var t := o[1..];
      forall i | 0 <= i < |t| ensures Less(b, t[i].key) {
        assert t[i] == o[i + 1];
      }
      InsertAbove(b, m, t);
      var r := Insert(m, t);
      forall j | 0 <= j < |[o[0]] + r| ensures Less(b, ([o[0]] + r)[j].key) {
        if j > 0 {
          assert ([o[0]] + r)[j] == r[j - 1];
        }
      }
    }
  }

  lemma {:induction false} InsertSorted(m: Member, o: Obj)
    requires SortedKeys(o)
    requires forall i :: 0 <= i < |o| ==> o[i].key != m.key
    ensures SortedKeys(Insert(m, o))
  {
    if o == [] {
    } else if Less(o[0].key, m.key) {
      var t := o[1..];
      forall i | 0 <= i < |t| ensures Less(o[0].key, t[i].key) && t[i].key != m.key {
        assert t[i] == o[i + 1];
      }
      assert SortedKeys(t) by {
        forall i, j | 0 <= i < j < |t| ensures Less(t[i].key, t[j].key) {
          assert t[i] == o[i + 1] && t[j] == o[j + 1];
        }
      }
      InsertSorted(m, t);
      InsertAbove(o[0].key, m, t);
      var r := Insert(m, t);
      var s := [o[0]] + r;
      forall i, j | 0 <= i < j < |s| ensures Less(s[i].key, s[j].key) {
        if i > 0 {
          assert s[i] == r[i - 1] && s[j] == r[j - 1];
        } else {
          assert s[j] == r[j - 1];
        }
      }
    } else {
      LessTotal(m.key, o[0].key);
      forall j | 0 < j < |o| ensures Less(m.key, o[j].key) {
        LessTransitive(m.key, o[0].key, o[j].key);
      }
      var s := [m] + o;
      forall i, j | 0 <= i < j < |s| ensures Less(s[i].key, s[j].key) {
        if i > 0 {
          assert s[i] == o[i - 1] && s[j] == o[j - 1];
        } else {
          assert s[j] == o[j - 1];
        }
      }
    }
  }

  /** The keys of an object, sorted, come out in strictly ascending order. */
  lemma {:induction false} SortKeysSorted(o: Obj)
    requires DistinctKeys(o)
    ensures SortedKeys(SortKeys(o))
  {
    if o != [] {
      SortKeysSorted(o[1..]);
      var r := SortKeys(o[1..]);
      SortKeysPermutes(o[1..]);
      forall i | 0 <= i < |r| ensures r[i].key != o[0].key {
        assert r[i] in multiset(o[1..]);
        var j :| 0 <= j < |o[1..]| && o[1..][j] == r[i];
        assert o[j + 1] == r[i];
      }
      InsertSorted(o[0], r);
    }
  }

  /** The first member of a sorted object is the one with the least key. */
  lemma SortedHeadsAgree(a: Obj, b: Obj)
    requires SortedKeys(a) && SortedKeys(b) && multiset(a) == multiset(b)
    requires a != [] && b != []
    ensures a[0] == b[0]
  {
    assert a[0] in multiset(b) && b[0] in multiset(a);
    var j :| 0 <= j < |b| && b[j] == a[0];
    var i :| 0 <= i < |a| && a[i] == b[0];
    if j != 0 {
      if i == 0 {
        LessIrreflexive(b[0].key);
      } else {
        LessAsymmetric(a[0].key, b[0].key);
      }
    }
  }

  lemma TailMultiset(a: Obj)
    requires a != []
    ensures multiset(a[1..]) == multiset(a) - multiset{a[0]}
  {
    assert a == [a[0]] + a[1..];
  }

  /** Two sorted objects with the same members are the same object. */
  lemma {:induction false} SortedUnique(a: Obj, b: Obj)
    requires SortedKeys(a) && SortedKeys(b) && multiset(a) == multiset(b)
    ensures a == b
  {
    if a == [] {
      assert |multiset(b)| == 0;
    } else {
      assert b != [] by {
        assert a[0] in multiset(a);
      }
      SortedHeadsAgree(a, b);
      TailMultiset(a);
      TailMultiset(b);
      assert SortedKeys(a[1..]) && SortedKeys(b[1..]) by {
        assert forall i :: 0 <= i < |a[1..]| ==> a[1..][i] == a[i + 1];
        assert forall i :: 0 <= i < |b[1..]| ==> b[1..][i] == b[i + 1];
      }
      SortedUnique(a[1..], b[1..]);
      assert a == [a[0]] + a[1..] && b == [b[0]] + b[1..];
    }
  }

  /** Two sorted objects that read the same under every name are the same object. */
  lemma {:induction false} SortedSameReads(a: Obj, b: Obj)
    requires SortedKeys(a) && SortedKeys(b)
    requires forall k :: Get(a, k) == Get(b, k)
    ensures a == b
  {
    SortedKeysDistinct(a);
    SortedKeysDistinct(b);
    if a == [] || b == [] {
      if a != [] {
        GetAt(a, 0);
        assert false;
      }
      if b != [] {
        GetAt(b, 0);
        assert false;
      }
    } else {
      GetAt(a, 0);
      GetAt(b, 0);
      assert Get(b, a[0].key) == Some(a[0].value);
      assert Get(a, b[0].key) == Some(b[0].value);
      GetFound(b, a[0].key);
      GetFound(a, b[0].key);
      var j :| 0 <= j < |b| && b[j] == a[0];
      var i :| 0 <= i < |a| && a[i] == b[0];
      if j != 0 && i != 0 {
        LessAsymmetric(a[0].key, b[0].key);
      }
      assert a[0] == b[0];
      forall k ensures Get(a[1..], k) == Get(b[1..], k) {
        if k == a[0].key {
          assert forall t :: 0 <= t < |a[1..]| ==> a[1..][t].key != k by {
            assert forall t :: 0 <= t < |a[1..]| ==> a[1..][t] == a[t + 1];
          }
          assert forall t :: 0 <= t < |b[1..]| ==> b[1..][t].key != k by {
            assert forall t :: 0 <= t < |b[1..]| ==> b[1..][t] == b[t + 1];
          }
        } else {
          assert Get(a, k) == Get(a[1..], k);
          assert Get(b, k) == Get(b[1..], k);
        }
      }
      assert SortedKeys(a[1..]) && SortedKeys(b[1..]) by {
        assert forall t :: 0 <= t < |a[1..]| ==> a[1..][t] == a[t + 1];
        assert forall t :: 0 <= t < |b[1..]| ==> b[1..][t] == b[t + 1];
      }
      SortedSameReads(a[1..], b[1..]);
      assert a == [a[0]] + a[1..] && b == [b[0]] + b[1..];
    }
  }

  /** Objects with the same names at the same places are sorted alike. */
  lemma SameKeysSorted(a: Obj, b: Obj)
    requires SortedKeys(a)
    requires |b| == |a| && forall i :: 0 <= i < |a| ==> b[i].key == a[i].key
    ensures SortedKeys(b)
  {
  }

  /** A property found in one object is found, with its value, in the other. */
  lemma ReadCarriesOver(a: Obj, b: Obj, k: string)
    requires DistinctKeys(b) && multiset(a) == multiset(b)
    requires Get(a, k).Some?
    ensures Get(b, k) == Get(a, k)
  {
    GetFound(a, k);
    var i :| 0 <= i < |a| && a[i] == Member(k, Get(a, k).value);
    assert a[i] in multiset(b);
    var j :| 0 <= j < |b| && b[j] == a[i];
    GetAt(b, j);
  }

  /** In objects with distinct keys, the same members means the same reads. */
  lemma SameMembersSameReads(a: Obj, b: Obj, k: string)
    requires DistinctKeys(a) && DistinctKeys(b) && multiset(a) == multiset(b)
    ensures Get(a, k) == Get(b, k)
  {
    if Get(a, k).Some? {
      ReadCarriesOver(a, b, k);
    } else if Get(b, k).Some? {
      ReadCarriesOver(b, a, k);
    }
  }

  /** Sorting keeps every property's value. */
  lemma SortKeysReads(o: Obj, k: string)
    requires DistinctKeys(o)
    ensures Get(SortKeys(o), k) == Get(o, k)
  {
    SortKeysSorted(o);
    SortKeysPermutes(o);
    SortedKeysDistinct(SortKeys(o));
    SameMembersSameReads(SortKeys(o), o, k);
  }

  /** Sorting an object whose keys are already sorted changes nothing. */
  lemma SortKeysOfSorted(o: Obj)
    requires SortedKeys(o)
    ensures SortKeys(o) == o
  {
    SortedKeysDistinct(o);
    SortKeysSorted(o);
    SortKeysPermutes(o);
    SortedUnique(SortKeys(o), o);
  }

  /**
   * The canonical encoding depends on the members only, not on the order in
   * which they were inserted.
   */
  lemma CanonicalOrderInvariant(a: Obj, b: Obj)
    requires DistinctKeys(a) && DistinctKeys(b) && multiset(a) == multiset(b)
    ensures Canonical(a) == Canonical(b)
  {
    SortKeysSorted(a);
    SortKeysSorted(b);
    SortKeysPermutes(a);
    SortKeysPermutes(b);
    SortedUnique(SortKeys(a), SortKeys(b));
  }

  /** Reading a canonical encoding gives the members sorted by key. */
  lemma CanonicalParses(o: Obj)
    requires DistinctKeys(o)
    ensures Parse(Canonical(o)) == Some(SortKeys(o))
    ensures SortedKeys(SortKeys(o))
    ensures forall k :: Get(SortKeys(o), k) == Get(o, k)
  {
    SortKeysSorted(o);
    SortedKeysDistinct(SortKeys(o));
    ParseStringify(SortKeys(o));
    forall k ensures Get(SortKeys(o), k) == Get(o, k) {
      SortKeysReads(o, k);
    }
  }

  /** An object with sorted keys is written canonically by plain JSON.stringify. */
  lemma StringifySortedIsCanonical(o: Obj)
    requires SortedKeys(o)
    ensures Stringify(o) == Canonical(o)
  {
    SortKeysOfSorted(o);
  }

}
