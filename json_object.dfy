/**
 * A JavaScript object whose property values are strings, as the contract
 * builds it and as JSON.parse returns it for a land record: its own
 * properties in insertion order. Insertion order matters because
 * JSON.stringify writes the properties in that order.
 */
module JsonObject {
  import opened Wrappers

  datatype Member = Member(key: string, value: string)

  type Obj = seq<Member>

  /** A JavaScript object never holds two properties with the same name. */
  predicate DistinctKeys(o: Obj)
  {
    forall i, j :: 0 <= i < j < |o| ==> o[i].key != o[j].key
  }

  /** Property read `o[k]`; `None` is `undefined`. */
  function Get(o: Obj, k: string): (r: Option<string>)
    ensures r.None? <==> forall i :: 0 <= i < |o| ==> o[i].key != k
  {
    if o == [] then None
    else if o[0].key == k then Some(o[0].value)
    else Get(o[1..], k)
  }

  /** A read that finds a value finds it in a property of that name. */
  lemma {:induction false} GetFound(o: Obj, k: string)
    requires Get(o, k).Some?
    ensures exists i :: 0 <= i < |o| && o[i] == Member(k, Get(o, k).value)
  {
    if o[0].key != k {
      GetFound(o[1..], k);
      var i :| 0 <= i < |o[1..]| && o[1..][i] == Member(k, Get(o, k).value);
      assert o[i + 1] == o[1..][i];
    }
  }

  /** In an object, the property at position i is the one a read of its name finds. */
  lemma GetAt(o: Obj, i: nat)
    requires DistinctKeys(o) && i < |o|
    ensures Get(o, o[i].key) == Some(o[i].value)
  {
    var r := Get(o, o[i].key);
    if r.Some? {
      GetFound(o, o[i].key);
      var j :| 0 <= j < |o| && o[j] == Member(o[i].key, r.value);
      assert j == i;
    }
  }

  /**
   * Property assignment `o[k] = v`: an existing property keeps its place and
   * takes the new value, a new one is appended.
   */
  function Set(o: Obj, k: string, v: string): Obj
  {
    if o == [] then [Member(k, v)]
    else if o[0].key == k then [Member(k, v)] + o[1..]
    else [o[0]] + Set(o[1..], k, v)
  }

  /** Assigning an existing property keeps every name in its place. */
  lemma {:induction false} SetExisting(o: Obj, k: string, v: string)
    requires Get(o, k).Some?
    ensures |Set(o, k, v)| == |o|
    ensures forall i :: 0 <= i < |o| ==> Set(o, k, v)[i].key == o[i].key
  {
    if o[0].key != k {
      SetExisting(o[1..], k, v);
      var r := Set(o, k, v);
      assert r[1..] == Set(o[1..], k, v);
      assert forall i :: 1 <= i < |o| ==> r[i].key == r[1..][i - 1].key;
    }
  }

  /** Assigning a new property appends it. */
  lemma {:induction false} SetNew(o: Obj, k: string, v: string)
    requires Get(o, k).None?
    ensures Set(o, k, v) == o + [Member(k, v)]
  {
    if o != [] {
      SetNew(o[1..], k, v);
      assert o == [o[0]] + o[1..];
    }
  }

  /** After `o[k] = v`, reading k gives v and reading any other name gives what it gave before. */
  lemma {:induction false} SetReads(o: Obj, k: string, v: string)
    ensures forall k' :: Get(Set(o, k, v), k') == if k' == k then Some(v) else Get(o, k')
  {
    if o != [] && o[0].key != k {
      SetReads(o[1..], k, v);
      var r := Set(o, k, v);
      assert r[1..] == Set(o[1..], k, v);
      forall k' ensures Get(r, k') == if k' == k then Some(v) else Get(o, k') {
        if k' != o[0].key {
          assert Get(r, k') == Get(r[1..], k');
        }
      }
    } else if o != [] {
      var r := Set(o, k, v);
      assert r[1..] == o[1..];
      forall k' ensures Get(r, k') == if k' == k then Some(v) else Get(o, k') {
        if k' != k {
          assert Get(r, k') == Get(r[1..], k');
        }
      }
    }
  }

  /** Assignment never makes two properties share a name. */
  lemma {:induction false} SetDistinct(o: Obj, k: string, v: string)
    requires DistinctKeys(o)
    ensures DistinctKeys(Set(o, k, v))
  {
    if o != [] && o[0].key != k {
      SetDistinct(o[1..], k, v);
      SetReads(o[1..], k, v);
      var t := Set(o[1..], k, v);
      var r := [o[0]] + t;
      assert r == Set(o, k, v);
      assert Get(o[1..], o[0].key).None?;
      assert Get(t, o[0].key).None?;
      forall i, j | 0 <= i < j < |r| ensures r[i].key != r[j].key {
        if i > 0 {
          assert r[i] == t[i - 1] && r[j] == t[j - 1];
        } else {
          assert r[j] == t[j - 1];
        }
      }
    } else if o != [] {
      var r := Set(o, k, v);
      assert forall i :: 1 <= i < |r| ==> r[i] == o[i];
    }
  }

  /** The object without any property named k. */
  function Remove(o: Obj, k: string): (r: Obj)
    ensures Get(o, k).None? ==> r == o
    ensures Get(r, k) == None
    ensures forall k' :: k' != k ==> Get(r, k') == Get(o, k')
    ensures DistinctKeys(o) ==> DistinctKeys(r)
  {
    if o == [] then []
    else if o[0].key == k then Remove(o[1..], k)
    else
      var t := Remove(o[1..], k);
      var r := [o[0]] + t;
      assert r[1..] == t;
      assert DistinctKeys(o) ==> Get(o[1..], o[0].key).None? && Get(t, o[0].key).None?;
      r
  }

  /**
   * Property assignment `o[k] = v` where v may be `undefined`. JSON.stringify
   * omits a property whose value is `undefined`, and reading it gives
   * `undefined` just as for a missing one, so such a property is dropped.
   */
  function Assign(o: Obj, k: string, v: Option<string>): (r: Obj)
    ensures Get(r, k) == v
    ensures forall k' :: k' != k ==> Get(r, k') == Get(o, k')
    ensures DistinctKeys(o) ==> DistinctKeys(r)
  {
    match v
    case Some(s) =>
      SetReads(o, k, s);
      if DistinctKeys(o) then SetDistinct(o, k, s); Set(o, k, s) else Set(o, k, s)
    case None => Remove(o, k)
  }

}
