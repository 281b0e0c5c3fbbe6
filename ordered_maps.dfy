/**
 * PHP arrays with string keys, as far as the commands use them: an ordered list of
 * distinct keys, each with a value. An array literal stores its pairs one after the
 * other, so a repeated key keeps the place of its first occurrence and the value of
 * its last; `$a += $b` appends the pairs of `$b` whose keys `$a` lacks, so on a shared
 * key the left operand wins.
 */
module OrderedMaps {

  type Entries<V> = seq<(string, V)>

  function Keys<V>(a: Entries<V>): (ks: seq<string>)
    ensures |ks| == |a|
    ensures forall i :: 0 <= i < |a| ==> ks[i] == a[i].0
  {
    if a == [] then [] else [a[0].0] + Keys(a[1..])
  }

  /** No key occurs twice. */
  predicate DistinctKeys<V>(a: Entries<V>)
  {
    forall i, j :: 0 <= i < j < |a| ==> a[i].0 != a[j].0
  }

  /** $a[$k] = $v: overwrite in place when the key is there, append otherwise. */
  function Store<V>(a: Entries<V>, k: string, v: V): (r: Entries<V>)
    ensures k in Keys(a) ==> |r| == |a| && forall i :: 0 <= i < |a| ==> r[i].0 == a[i].0
    ensures k !in Keys(a) ==> r == a + [(k, v)]
  {
    if a == [] then [(k, v)]
    else if a[0].0 == k then [(k, v)] + a[1..]
    else [a[0]] + Store(a[1..], k, v)
  }

  /** array(k1 => v1, k2 => v2, ...) */
  function Literal<V>(pairs: Entries<V>): Entries<V>
    decreases |pairs|
  {
    if pairs == [] then [] else Store(Literal(pairs[..|pairs| - 1]), pairs[|pairs| - 1].0, pairs[|pairs| - 1].1)
  }

  /** $a += $b */
  function Union<V>(a: Entries<V>, b: Entries<V>): Entries<V>
    decreases |b|
  {
    if b == [] then a
    else if b[0].0 in Keys(a) then Union(a, b[1..])
    else Union(a + [b[0]], b[1..])
  }

  /** On an array, `$a[$k] = $v` for a key it holds changes that key's value and nothing else. */
  lemma {:induction false} StoreOverwrites<V>(a: Entries<V>, k: string, v: V)
    requires DistinctKeys(a) && k in Keys(a)
    ensures forall i :: 0 <= i < |a| ==> Store(a, k, v)[i] == (if a[i].0 == k then (k, v) else a[i])
    decreases |a|
  {
    if a[0].0 != k {
      assert k in Keys(a[1..]) by {
        var i :| 0 <= i < |a| && Keys(a)[i] == k;
        assert Keys(a[1..])[i - 1] == k;
      }
      StoreOverwrites(a[1..], k, v);
    } else {
      assert forall i :: 1 <= i < |a| ==> a[i].0 != k;
    }
  }

  lemma {:induction false} StoreDistinct<V>(a: Entries<V>, k: string, v: V)
    requires DistinctKeys(a)
    ensures DistinctKeys(Store(a, k, v))
  {
    var r := Store(a, k, v);
    if k !in Keys(a) {
      forall i | 0 <= i < |a| ensures a[i].0 != k {
        assert Keys(a)[i] == a[i].0;
      }
    }
  }

  /** An array literal never holds a key twice. */
  lemma {:induction false} LiteralDistinct<V>(pairs: Entries<V>)
    ensures DistinctKeys(Literal(pairs))
    decreases |pairs|
  {
    if pairs != [] {
      LiteralDistinct(pairs[..|pairs| - 1]);
      StoreDistinct(Literal(pairs[..|pairs| - 1]), pairs[|pairs| - 1].0, pairs[|pairs| - 1].1);
    }
  }

  /** A literal whose keys are all different keeps its pairs, in order. */
  lemma {:induction false} LiteralOfDistinct<V>(pairs: Entries<V>)
    requires DistinctKeys(pairs)
    ensures Literal(pairs) == pairs
    decreases |pairs|
  {
    if pairs != [] {
      var init := pairs[..|pairs| - 1];
      var last := pairs[|pairs| - 1];
      LiteralOfDistinct(init);
      forall i | 0 <= i < |init| ensures Keys(init)[i] != last.0 {
        assert init[i] == pairs[i];
      }
      assert init + [last] == pairs;
    }
  }

  /** `$a += $b` leaves the pairs of `$a` where they were, with their values. */
  lemma {:induction false} UnionPrefix<V>(a: Entries<V>, b: Entries<V>)
    ensures |a| <= |Union(a, b)| && Union(a, b)[..|a|] == a
    decreases |b|
  {
    if b != [] {
      if b[0].0 in Keys(a) {
        UnionPrefix(a, b[1..]);
      } else {
        var a1 := a + [b[0]];
        UnionPrefix(a1, b[1..]);
        var u := Union(a1, b[1..]);
        assert u[..|a1|][..|a|] == a;
        assert u[..|a|] == u[..|a1|][..|a|];
      }
    }
  }

  /** What `$a += $b` adds after `$a` are pairs of `$b` whose keys `$a` lacks. */
  lemma {:induction false} UnionAddsNew<V>(a: Entries<V>, b: Entries<V>, i: nat)
    requires |a| <= i < |Union(a, b)|
    ensures Union(a, b)[i] in b && Union(a, b)[i].0 !in Keys(a)
    decreases |b|
  {
    if b[0].0 in Keys(a) {
      UnionAddsNew(a, b[1..], i);
    } else {
      var a1 := a + [b[0]];
      if i == |a| {
        UnionPrefix(a1, b[1..]);
        assert Union(a, b)[i] == Union(a1, b[1..])[..|a1|][i];
      } else {
        UnionAddsNew(a1, b[1..], i);
        assert Keys(a1) == Keys(a) + [b[0].0];
      }
    }
  }

  /** Every key of `$b` is a key of `$a += $b`. */
  lemma {:induction false} UnionCovers<V>(a: Entries<V>, b: Entries<V>, j: nat)
    requires j < |b|
    ensures b[j].0 in Keys(Union(a, b))
    decreases |b|
  {
    if j == 0 {
      if b[0].0 in Keys(a) {
        UnionKeyStays(a, b[1..], b[0].0);
      } else {
        var a1 := a + [b[0]];
        assert Keys(a1)[|a|] == b[0].0;
        UnionKeyStays(a1, b[1..], b[0].0);
      }
    } else if b[0].0 in Keys(a) {
      UnionCovers(a, b[1..], j - 1);
    } else {
      UnionCovers(a + [b[0]], b[1..], j - 1);
    }
  }

  lemma UnionKeyStays<V>(a: Entries<V>, b: Entries<V>, k: string)
    requires k in Keys(a)
    ensures k in Keys(Union(a, b))
  {
    UnionPrefix(a, b);
    var i :| 0 <= i < |a| && Keys(a)[i] == k;
    assert Union(a, b)[..|a|][i] == a[i];
    assert Keys(Union(a, b))[i] == k;
  }

  /** When the keys do not overlap, `$a += $b` is `$b` appended to `$a`. */
  lemma {:induction false} UnionDisjoint<V>(a: Entries<V>, b: Entries<V>)
    requires DistinctKeys(b)
    requires forall i, j :: 0 <= i < |a| && 0 <= j < |b| ==> a[i].0 != b[j].0
    ensures Union(a, b) == a + b
    decreases |b|
  {
    if b != [] {
      assert b[0].0 !in Keys(a) by {
        forall i | 0 <= i < |a| ensures Keys(a)[i] != b[0].0 { }
      }
      var a1 := a + [b[0]];
      forall i, j | 0 <= i < |a1| && 0 <= j < |b[1..]| ensures a1[i].0 != b[1..][j].0 {
        assert b[1..][j] == b[j + 1];
      }
      UnionDisjoint(a1, b[1..]);
      assert a1 + b[1..] == a + b;
    }
  }

  /** A two-pair literal with different keys keeps both pairs, in order. */
  lemma LiteralPair<V>(x: (string, V), y: (string, V))
    requires x.0 != y.0
    ensures Literal([x, y]) == [x, y]
  {
    LiteralOfDistinct([x, y]);
  }

  /** Two two-pair literals over four different keys: `+=` appends the second. */
  lemma UnionOfPairs<V>(x: (string, V), y: (string, V), u: (string, V), v: (string, V))
    requires x.0 != y.0 && u.0 != v.0
    requires x.0 != u.0 && x.0 != v.0 && y.0 != u.0 && y.0 != v.0
    ensures Union(Literal([x, y]), Literal([u, v])) == [x, y, u, v]
  {
    LiteralPair(x, y);
    LiteralPair(u, v);
    var b := [u, v];
    assert Keys([x, y]) == [x.0, y.0];
    assert Keys([x, y, u]) == [x.0, y.0, u.0];
    assert b[1..] == [v] && [v][1..] == [];
    assert u.0 !in Keys([x, y]) && [x, y] + [b[0]] == [x, y, u];
    assert v.0 !in Keys([x, y, u]) && [x, y, u] + [v] == [x, y, u, v];
    assert Union([x, y], b) == Union([x, y, u], [v]);
    assert Union([x, y, u], [v]) == Union([x, y, u, v], []);
  }
}
