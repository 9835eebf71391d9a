/**
 The order in which a `BTreeMap<String, _>` hands out its keys: ascending
 lexicographic order on strings. Characters are compared by code point, which
 for UTF-8 text is the same as Rust's byte-wise comparison of `String`s.
 */
module Order {

  /** Strict lexicographic order: a proper prefix comes first, otherwise the
      first differing character decides. */
  predicate LexLess(a: string, b: string)
    decreases |a|
  {
    if |b| == 0 then false
    else if |a| == 0 then true
    else if a[0] != b[0] then a[0] < b[0]
    else LexLess(a[1..], b[1..])
  }

  lemma {:induction false} LexLessIrreflexive(a: string)
    ensures !LexLess(a, a)
    decreases |a|
  {
    if |a| > 0 {
      LexLessIrreflexive(a[1..]);
    }
  }

  lemma {:induction false} LexLessTransitive(a: string, b: string, c: string)
    requires LexLess(a, b) && LexLess(b, c)
    ensures LexLess(a, c)
    decreases |a|
  {
    if |a| > 0 && a[0] == b[0] && b[0] == c[0] {
      LexLessTransitive(a[1..], b[1..], c[1..]);
    }
  }

  /** Any two different strings are ordered one way or the other. */
  lemma {:induction false} LexLessTotal(a: string, b: string)
    requires a != b
    ensures LexLess(a, b) || LexLess(b, a)
    decreases |a|
  {
    if |a| > 0 && |b| > 0 && a[0] == b[0] {
      assert a == [a[0]] + a[1..] && b == [b[0]] + b[1..];
      LexLessTotal(a[1..], b[1..]);
    }
  }

  lemma LexLessAsymmetric(a: string, b: string)
    requires LexLess(a, b)
    ensures !LexLess(b, a)
  {
    if LexLess(b, a) {
      LexLessTransitive(a, b, a);
      LexLessIrreflexive(a);
    }
  }

  /** Strictly ascending, hence also free of duplicates. */
  predicate Ascending(ks: seq<string>) {
    forall i, j :: 0 <= i < j < |ks| ==> LexLess(ks[i], ks[j])
  }

  predicate IsLeast(k: string, s: set<string>) {
    k in s && forall j :: j in s && j != k ==> LexLess(k, j)
  }

  lemma {:induction false} LeastExists(s: set<string>)
    requires s != {}
    ensures exists k :: IsLeast(k, s)
    decreases s
  {
    var x :| x in s;
    var rest := s - {x};
    assert forall j :: j in s && j != x ==> j in rest;
    if rest == {} {
      assert IsLeast(x, s);
    } else {
      LeastExists(rest);
      var m :| IsLeast(m, rest);
      if LexLess(m, x) {
        assert IsLeast(m, s);
      } else {
        LexLessTotal(m, x);
        forall j | j in s && j != x
          ensures LexLess(x, j)
        {
          if j != m {
            LexLessTransitive(x, m, j);
          }
        }
        assert IsLeast(x, s);
      }
    }
  }

  lemma LeastUnique(k1: string, k2: string, s: set<string>)
    requires IsLeast(k1, s) && IsLeast(k2, s)
    ensures k1 == k2
  {
    if k1 != k2 {
      LexLessAsymmetric(k1, k2);
    }
  }

  ghost function Least(s: set<string>): (k: string)
    requires s != {}
    ensures IsLeast(k, s)
  {
    LeastExists(s);
    var k :| IsLeast(k, s);
    k
  }

  /** The keys of a map in the order a `BTreeMap` iterates them. */
  ghost function SortedKeys(s: set<string>): (ks: seq<string>)
    ensures forall k :: k in ks <==> k in s
    ensures |ks| == |s|
    decreases s
  {
    if s == {} then []
    else
      var k := Least(s);
      [k] + SortedKeys(s - {k})
  }

  /** Iteration visits the keys in strictly ascending order. */
  lemma {:induction false} SortedKeysAscending(s: set<string>)
    ensures Ascending(SortedKeys(s))
    decreases s
  {
    if s != {} {
      var k := Least(s);
      var rest := SortedKeys(s - {k});
      SortedKeysAscending(s - {k});
      assert forall j :: 0 <= j < |rest| ==> rest[j] in s - {k};
      assert SortedKeys(s) == [k] + rest;
    }
  }

  /** Iteration starts with the least key. */
  lemma SortedKeysUnfold(s: set<string>, k: string)
    requires IsLeast(k, s)
    ensures SortedKeys(s) == [k] + SortedKeys(s - {k})
  {
    LeastUnique(k, Least(s), s);
  }

  /** One step of iteration: taking the least remaining key keeps the visited
      keys a prefix of the iteration order. */
  lemma VisitLeast(visited: seq<string>, rest: set<string>, s: set<string>, k: string)
    requires visited + SortedKeys(rest) == SortedKeys(s)
    requires IsLeast(k, rest)
    ensures (visited + [k]) + SortedKeys(rest - {k}) == SortedKeys(s)
  {
    SortedKeysUnfold(rest, k);
    assert visited + SortedKeys(rest) == (visited + [k]) + SortedKeys(rest - {k});
  }

  lemma AscendingTail(a: seq<string>)
    requires Ascending(a) && a != []
    ensures Ascending(a[1..])
    ensures forall k :: k in a[1..] <==> k in a && k != a[0]
  {
    forall k | k in a[1..]
      ensures k != a[0]
    {
      var i :| 0 <= i < |a[1..]| && a[1..][i] == k;
      assert LexLess(a[0], a[i + 1]);
      LexLessIrreflexive(a[0]);
    }
    forall k | k in a && k != a[0]
      ensures k in a[1..]
    {
      var i :| 0 <= i < |a| && a[i] == k;
      assert a[1..][i - 1] == k;
    }
  }

  /** An ascending sequence is determined by its elements. */
  lemma {:induction false} AscendingUnique(a: seq<string>, b: seq<string>)
    requires Ascending(a) && Ascending(b)
    requires forall k :: k in a <==> k in b
    ensures a == b
    decreases |a|
  {
    assert a != [] ==> a[0] in b;
    assert b != [] ==> b[0] in a;
    if a == [] || b == [] {
    } else {
      if a[0] != b[0] {
        assert b[0] in a;
        var i :| 0 <= i < |a| && a[i] == b[0];
        assert a[0] in b;
        var j :| 0 <= j < |b| && b[j] == a[0];
        LexLessAsymmetric(a[0], a[i]);
        assert false;
      }
      AscendingTail(a);
      AscendingTail(b);
      AscendingUnique(a[1..], b[1..]);
      assert a == [a[0]] + a[1..] && b == [b[0]] + b[1..];
    }
  }

  lemma AscendingConcat(a: seq<string>, b: seq<string>)
    requires Ascending(a) && Ascending(b)
    requires forall i, j :: 0 <= i < |a| && 0 <= j < |b| ==> LexLess(a[i], b[j])
    ensures Ascending(a + b)
  {
  }

  ghost function KeysBelow(s: set<string>, k: string): set<string> {
    set j | j in s && LexLess(j, k)
  }

  ghost function KeysAbove(s: set<string>, k: string): set<string> {
    set j | j in s && LexLess(k, j)
  }

  /** Ascending keys below `k`, then `k`, then ascending keys above it, are ascending. */
  lemma AscendingAround(lo: seq<string>, k: string, hi: seq<string>)
    requires Ascending(lo) && Ascending(hi)
    requires forall i :: 0 <= i < |lo| ==> LexLess(lo[i], k)
    requires forall j :: 0 <= j < |hi| ==> LexLess(k, hi[j])
    ensures Ascending(lo + [k] + hi)
  {
    AscendingConcat(lo, [k]);
    forall i, j | 0 <= i < |lo + [k]| && 0 <= j < |hi|
      ensures LexLess((lo + [k])[i], hi[j])
    {
      if i < |lo| {
        LexLessTransitive(lo[i], k, hi[j]);
      }
    }
    AscendingConcat(lo + [k], hi);
  }

  /** Every key is below `k`, equal to it, or above it. */
  lemma KeysAround(s: set<string>, k: string)
    requires k in s
    ensures forall x :: x in s <==> x in KeysBelow(s, k) || x == k || x in KeysAbove(s, k)
  {
    forall x | x in s && x != k
      ensures LexLess(x, k) || LexLess(k, x)
    {
      LexLessTotal(x, k);
    }
  }

  /** Iterating a map visits every key below `k`, then `k`, then every key above it. */
  lemma SortedKeysAround(s: set<string>, k: string)
    requires k in s
    ensures SortedKeys(s) == SortedKeys(KeysBelow(s, k)) + [k] + SortedKeys(KeysAbove(s, k))
  {
    var lo, hi := SortedKeys(KeysBelow(s, k)), SortedKeys(KeysAbove(s, k));
    assert forall i :: 0 <= i < |lo| ==> lo[i] in KeysBelow(s, k);
    assert forall j :: 0 <= j < |hi| ==> hi[j] in KeysAbove(s, k);
    SortedKeysAscending(KeysBelow(s, k));
    SortedKeysAscending(KeysAbove(s, k));
    SortedKeysAscending(s);
    AscendingAround(lo, k, hi);
    KeysAround(s, k);
    AscendingUnique(SortedKeys(s), lo + [k] + hi);
  }

  /** Finds the least key by one pass over the set. */
  method LeastKey(s: set<string>) returns (k: string)
    requires s != {}
    ensures IsLeast(k, s)
  {
    k :| k in s;
    var rest := s - {k};
    while rest != {}
      invariant rest <= s && k in s && k !in rest
      invariant forall j :: j in s - rest && j != k ==> LexLess(k, j)
      decreases rest
    {
      var j :| j in rest;
      if LexLess(j, k) {
        forall i | i in s - rest && i != k
          ensures LexLess(j, i)
        {
          LexLessTransitive(j, k, i);
        }
        k := j;
      } else {
        LexLessTotal(k, j);
      }
      rest := rest - {j};
    }
  }

  /** Lists a map's keys in iteration order, least key first. */
  method OrderedKeys(s: set<string>) returns (ks: seq<string>)
    ensures ks == SortedKeys(s)
  {
    ks := [];
    var rest := s;
    while rest != {}
      invariant ks + SortedKeys(rest) == SortedKeys(s)
      decreases rest
    {
      var k := LeastKey(rest);
      VisitLeast(ks, rest, s, k);
      ks, rest := ks + [k], rest - {k};
    }
  }

  // ---------------------------------------------------------------------------
  // Concatenating one piece of text per key, as a loop over a map does.

  /** The pieces stored under `keys`, in that order. */
  function Concat(pieces: map<string, string>, keys: seq<string>): string
    requires forall k :: k in keys ==> k in pieces
    decreases |keys|
  {
    if keys == [] then ""
    else Concat(pieces, keys[..|keys| - 1]) + pieces[keys[|keys| - 1]]
  }

  lemma {:induction false} ConcatAppend(pieces: map<string, string>, a: seq<string>, b: seq<string>)
    requires forall k :: k in a + b ==> k in pieces
    ensures Concat(pieces, a + b) == Concat(pieces, a) + Concat(pieces, b)
    decreases |b|
  {
    if b == [] {
      assert a + b == a;
    } else {
      var b' := b[..|b| - 1];
      assert (a + b)[..|a + b| - 1] == a + b';
      ConcatAppend(pieces, a, b');
    }
  }

  /** Each step of a loop over `keys` appends the next piece. */
  lemma ConcatStep(pieces: map<string, string>, keys: seq<string>, i: nat)
    requires i < |keys|
    requires forall k :: k in keys ==> k in pieces
    ensures Concat(pieces, keys[..i + 1]) == Concat(pieces, keys[..i]) + pieces[keys[i]]
  {
    assert keys[..i + 1][..i] == keys[..i];
  }

  /** All pieces, in ascending key order. */
  ghost function InKeyOrder(pieces: map<string, string>): string {
    Concat(pieces, SortedKeys(pieces.Keys))
  }

  /** The piece under `k` comes after the pieces of all smaller keys and before
      those of all larger keys. */
  lemma InKeyOrderAround(pieces: map<string, string>, k: string)
    requires k in pieces
    ensures InKeyOrder(pieces) ==
      Concat(pieces, SortedKeys(KeysBelow(pieces.Keys, k)))
      + pieces[k]
      + Concat(pieces, SortedKeys(KeysAbove(pieces.Keys, k)))
  {
    var lo, hi := SortedKeys(KeysBelow(pieces.Keys, k)), SortedKeys(KeysAbove(pieces.Keys, k));
    SortedKeysAround(pieces.Keys, k);
    ConcatAppend(pieces, lo + [k], hi);
    ConcatAppend(pieces, lo, [k]);
    assert Concat(pieces, [k]) == pieces[k];
  }

  /** With a single key, the result is that key's piece alone. */
  lemma InKeyOrderSingle(pieces: map<string, string>, k: string)
    requires pieces.Keys == {k}
    ensures InKeyOrder(pieces) == pieces[k]
  {
    InKeyOrderAround(pieces, k);
    LexLessIrreflexive(k);
    assert KeysBelow(pieces.Keys, k) == {};
    assert KeysAbove(pieces.Keys, k) == {};
  }

}
