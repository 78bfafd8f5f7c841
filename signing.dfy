/**
 * The string MEXC signatures are computed over, and the signature itself:
 * the dict's items sorted as Python sorts tuples, rendered `k=v`, joined
 * with `&`, followed by `&timestamp=<ts>`. HMAC-SHA256 with hex output is
 * an input, `Mac`, applied to the secret and that string.
 */
module Signing {
  import opened PyText
  import opened PyDict

  /** Python's `<` on `(key, value)` tuples. */
  predicate PairBelow(p: Pair, q: Pair)
  {
    Below(p.0, q.0) || (p.0 == q.0 && Below(p.1, q.1))
  }

  predicate PairAtMost(p: Pair, q: Pair)
  {
    p == q || PairBelow(p, q)
  }

  lemma PairAtMostTotal(p: Pair, q: Pair)
    ensures PairAtMost(p, q) || PairAtMost(q, p)
  {
    BelowTotal(p.0, q.0);
    BelowTotal(p.1, q.1);
  }

  lemma PairAtMostTransitive(p: Pair, q: Pair, r: Pair)
    requires PairAtMost(p, q) && PairAtMost(q, r)
    ensures PairAtMost(p, r)
  {
    if p != q && q != r {
      if Below(p.0, q.0) && Below(q.0, r.0) {
        BelowTransitive(p.0, q.0, r.0);
      } else if p.0 == q.0 && q.0 == r.0 {
        BelowTransitive(p.1, q.1, r.1);
      }
    }
  }

  lemma PairAtMostAntisymmetric(p: Pair, q: Pair)
    requires PairAtMost(p, q) && PairAtMost(q, p)
    ensures p == q
  {
    if p != q {
      if Below(p.0, q.0) {
        BelowAsymmetric(p.0, q.0);
        BelowIrreflexive(p.0);
      } else {
        BelowAsymmetric(p.1, q.1);
        BelowIrreflexive(q.0);
      }
    }
  }

  ghost predicate Sorted(s: seq<Pair>)
  {
    forall i, j :: 0 <= i < j < |s| ==> PairAtMost(s[i], s[j])
  }

  function Insert(x: Pair, s: seq<Pair>): (r: seq<Pair>)
    requires Sorted(s)
    ensures Sorted(r) && multiset(r) == multiset(s) + multiset{x}
  {
    if s == [] then [x]
    else if PairAtMost(x, s[0]) then
      assert forall j :: 0 <= j < |s| ==> PairAtMost(x, s[j]) by {
        forall j | 0 <= j < |s| ensures PairAtMost(x, s[j]) {
          if j > 0 { PairAtMostTransitive(x, s[0], s[j]); }
        }
      }
      [x] + s
    else
      PairAtMostTotal(x, s[0]);
      var t := Insert(x, s[1..]);
      assert s == [s[0]] + s[1..];
      assert forall j :: 0 <= j < |t| ==> PairAtMost(s[0], t[j]) by {
        forall j | 0 <= j < |t| ensures PairAtMost(s[0], t[j]) {
          assert t[j] in multiset(t);
          if t[j] != x {
            assert t[j] in multiset(s[1..]);
            var m :| 0 <= m < |s[1..]| && s[1..][m] == t[j];
            assert s[m + 1] == t[j];
          }
        }
      }
      [s[0]] + t
  }

  /** `sorted(params.items())`, by insertion. */
  function SortItems(s: seq<Pair>): (r: seq<Pair>)
    ensures Sorted(r) && multiset(r) == multiset(s)
  {
    if s == [] then []
    else
      assert s == [s[0]] + s[1..];
      Insert(s[0], SortItems(s[1..]))
  }

  /** Two sorted sequences with the same elements start with the same element. */
  lemma SortedHeads(a: seq<Pair>, b: seq<Pair>)
    requires Sorted(a) && Sorted(b) && multiset(a) == multiset(b) && a != []
    ensures b != [] && a[0] == b[0]
  {
    assert a[0] in multiset(b);
    var i :| 0 <= i < |b| && b[i] == a[0];
    assert b[0] in multiset(a);
    var j :| 0 <= j < |a| && a[j] == b[0];
    assert PairAtMost(b[0], a[0]) && PairAtMost(a[0], b[0]);
    PairAtMostAntisymmetric(a[0], b[0]);
  }

  lemma TailMultiset(a: seq<Pair>)
    requires a != []
    ensures multiset(a[1..]) == multiset(a) - multiset{a[0]}
  {
    assert a == [a[0]] + a[1..];
  }

  /**
   * A sorted sequence is determined by its elements, so every correct sort
   * (Python's included) gives what SortItems gives.
   */
  lemma {:induction false} SortedUnique(a: seq<Pair>, b: seq<Pair>)
    requires Sorted(a) && Sorted(b) && multiset(a) == multiset(b)
    ensures a == b
  {
    if a != [] {
      SortedHeads(a, b);
      TailMultiset(a);
      TailMultiset(b);
      assert Sorted(a[1..]) && Sorted(b[1..]);
      SortedUnique(a[1..], b[1..]);
      assert a == [a[0]] + a[1..] && b == [b[0]] + b[1..];
    } else {
      assert |multiset(b)| == 0;
    }
  }

  /** A sorted permutation of the items is what sorting them gives. */
  lemma SortItemsIs(s: seq<Pair>, t: seq<Pair>)
    requires Sorted(t) && multiset(t) == multiset(s)
    ensures SortItems(s) == t
  {
    SortedUnique(SortItems(s), t);
  }

  /** Sortedness from the order of neighbours. */
  lemma {:induction false} SortedByNeighbours(s: seq<Pair>)
    requires forall i :: 0 <= i < |s| - 1 ==> PairAtMost(s[i], s[i + 1])
    ensures Sorted(s)
  {
    if |s| > 1 {
      SortedByNeighbours(s[1..]);
      forall j | 1 <= j < |s| ensures PairAtMost(s[0], s[j]) {
        if j > 1 {
          assert s[1..][0] == s[1] && s[1..][j - 1] == s[j];
          PairAtMostTransitive(s[0], s[1], s[j]);
        }
      }
      forall i, j | 0 <= i < j < |s| ensures PairAtMost(s[i], s[j]) {
        if i > 0 { assert s[1..][i - 1] == s[i] && s[1..][j - 1] == s[j]; }
      }
    }
  }

  function Render(p: Pair): string
  {
    p.0 + "=" + p.1
  }

  function RenderAll(s: seq<Pair>): seq<string>
  {
    seq(|s|, i requires 0 <= i < |s| => Render(s[i]))
  }

  /** The string `_generate_signature` hands to HMAC. */
  function SignedString(params: seq<Pair>, timestamp: string): string
  {
    Join("&", RenderAll(SortItems(params))) + "&timestamp=" + timestamp
  }

  /** HMAC-SHA256 under a key, as a lowercase hex digest. */
  type Mac = (string, string) -> string

  function Signature(mac: Mac, secret: string, params: seq<Pair>, timestamp: string): string
  {
    mac(secret, SignedString(params, timestamp))
  }

  /** A sequence without repeated keys has no repeated elements either. */
  lemma {:induction false} DistinctKeysCount(s: seq<Pair>, x: Pair)
    requires DistinctKeys(s)
    ensures multiset(s)[x] == if x in s then 1 else 0
  {
    if s != [] {
      assert s == [s[0]] + s[1..];
      DistinctKeysCount(s[1..], x);
      if x == s[0] {
        assert forall i :: 0 <= i < |s| - 1 ==> s[1..][i].0 != s[0].0;
      }
    }
  }

  /**
   * Two dicts with the same entries, in whatever insertion order, give the
   * same signed string: only the set of pairs matters.
   */
  lemma SignedStringOrderIndependent(p: seq<Pair>, q: seq<Pair>, timestamp: string)
    requires DistinctKeys(p) && DistinctKeys(q)
    requires forall x :: x in p <==> x in q
    ensures SignedString(p, timestamp) == SignedString(q, timestamp)
  {
    forall x ensures multiset(p)[x] == multiset(q)[x] {
      DistinctKeysCount(p, x);
      DistinctKeysCount(q, x);
    }
    assert multiset(p) == multiset(q);
    SortedUnique(SortItems(p), SortItems(q));
  }

  /** The same items and timestamp under the same secret always give the same signature. */
  lemma SignatureOrderIndependent(mac: Mac, secret: string, p: seq<Pair>, q: seq<Pair>, timestamp: string)
    requires DistinctKeys(p) && DistinctKeys(q)
    requires forall x :: x in p <==> x in q
    ensures Signature(mac, secret, p, timestamp) == Signature(mac, secret, q, timestamp)
  {
    SignedStringOrderIndependent(p, q, timestamp);
  }
}
