/**
 * A Python dict with string keys and values, as the bot uses it: its items in
 * insertion order, each key at most once. `Dict` is the mutable object that
 * is passed around by reference and updated in place.
 */
module PyDict {
  import opened Wrappers

  type Pair = (string, string)

  function Keys(s: seq<Pair>): set<string>
  {
    set i | 0 <= i < |s| :: s[i].0
  }

  predicate DistinctKeys(s: seq<Pair>)
  {
    forall i, j :: 0 <= i < j < |s| ==> s[i].0 != s[j].0
  }

  /** The keys of a dict are its first key and the keys of the rest; an empty dict has none. */
  lemma KeysCons(s: seq<Pair>)
    ensures s == [] ==> Keys(s) == {}
    ensures s != [] ==> Keys(s) == {s[0].0} + Keys(s[1..])
  {
    if s != [] {
      forall k | k in Keys(s) ensures k in {s[0].0} + Keys(s[1..]) {
        var i :| 0 <= i < |s| && s[i].0 == k;
        if i > 0 { assert s[1..][i - 1].0 == k; }
      }
      forall k | k in Keys(s[1..]) ensures k in Keys(s) {
        var i :| 0 <= i < |s| - 1 && s[1..][i].0 == k;
        assert s[i + 1].0 == k;
      }
    }
  }

  /** `d.get(k)`: the value stored under k, if any. */
  function Lookup(s: seq<Pair>, k: string): (r: Option<string>)
    ensures r.Some? <==> k in Keys(s)
    ensures r.Some? ==> (k, r.value) in s
    decreases |s|
  {
    KeysCons(s);
    if s == [] then None else if s[0].0 == k then Some(s[0].1) else Lookup(s[1..], k)
  }

  lemma {:induction false} LookupAt(s: seq<Pair>, i: nat)
    requires DistinctKeys(s) && i < |s|
    ensures Lookup(s, s[i].0) == Some(s[i].1)
  {
    if i > 0 {
      assert s[0].0 != s[i].0;
      LookupAt(s[1..], i - 1);
    }
  }

  /**
   * The items of the dict after `d[k] = v`: a key already present keeps its
   * place and takes the new value, a new key goes last, nothing else changes.
   */
  function Store(s: seq<Pair>, k: string, v: string): (r: seq<Pair>)
    requires DistinctKeys(s)
    ensures |r| == if k in Keys(s) then |s| else |s| + 1
    ensures forall i :: 0 <= i < |s| ==> r[i] == (if s[i].0 == k then (k, v) else s[i])
    ensures k !in Keys(s) ==> r[|s|] == (k, v)
    decreases |s|
  {
    KeysCons(s);
    if s == [] then [(k, v)]
    else if s[0].0 == k then
      assert forall i :: 0 <= i < |s| - 1 ==> s[1..][i].0 != k;
      [(k, v)] + s[1..]
    else
      [s[0]] + Store(s[1..], k, v)
  }

  /** `d[k] = v` keeps the keys distinct and adds exactly k to them. */
  lemma StoreKeys(s: seq<Pair>, k: string, v: string)
    requires DistinctKeys(s)
    ensures DistinctKeys(Store(s, k, v)) && Keys(Store(s, k, v)) == Keys(s) + {k}
  {
    var r := Store(s, k, v);
    forall i, j | 0 <= i < j < |r| ensures r[i].0 != r[j].0 {
      if j < |s| {
        assert r[i].0 == s[i].0 && r[j].0 == s[j].0;
      } else {
        assert k !in Keys(s) && r[j].0 == k && r[i].0 == s[i].0;
      }
    }
    forall key | key in Keys(r) ensures key in Keys(s) + {k} {
      var i :| 0 <= i < |r| && r[i].0 == key;
      if i < |s| { assert r[i].0 == s[i].0; }
    }
    forall key | key in Keys(s) + {k} ensures key in Keys(r) {
      if key in Keys(s) {
        var i :| 0 <= i < |s| && s[i].0 == key;
        assert r[i].0 == key;
      } else {
        assert r[|s|].0 == key;
      }
    }
  }

  /** Storing under a new key appends the pair. */
  lemma StoreAppends(s: seq<Pair>, k: string, v: string)
    requires DistinctKeys(s) && k !in Keys(s)
    ensures Store(s, k, v) == s + [(k, v)]
  {
    var r := Store(s, k, v);
    forall i | 0 <= i < |s| ensures r[i] == s[i] {
      assert s[i].0 in Keys(s);
    }
  }

  /** Reading a dict after `d[k] = v`. */
  lemma LookupStore(s: seq<Pair>, k: string, v: string, key: string)
    requires DistinctKeys(s)
    ensures Lookup(Store(s, k, v), key) == if key == k then Some(v) else Lookup(s, key)
  {
    var r := Store(s, k, v);
    StoreKeys(s, k, v);
    if key == k {
      var i := if k in Keys(s) then IndexOf(s, k) else |s|;
      LookupAt(r, i);
    } else if key in Keys(s) {
      var i := IndexOf(s, key);
      LookupAt(r, i);
      LookupAt(s, i);
    }
  }

  /** The position of a key that is present. */
  ghost function IndexOf(s: seq<Pair>, k: string): (i: nat)
    requires k in Keys(s)
    ensures i < |s| && s[i].0 == k
  {
    var i :| 0 <= i < |s| && s[i].0 == k; i
  }

  /** A dict object; callers that hold a reference see its in-place updates. */
  class Dict {
    var items: seq<Pair>

    ghost predicate Valid()
      reads this
    {
      DistinctKeys(items)
    }

    /** A dict display `{k1: v1, ...}` with distinct keys. */
    constructor (init: seq<Pair>)
      requires DistinctKeys(init)
      ensures Valid() && items == init
    {
      items := init;
    }

    /** `d[k] = v`. */
    method Set(k: string, v: string)
      requires Valid()
      modifies this
      ensures Valid() && items == Store(old(items), k, v)
    {
      items := Store(items, k, v);
    }
  }
}
