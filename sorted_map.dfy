/**
 * `BTreeMap<String, V>` as a list of key/value pairs strictly increasing in
 * the byte-wise order of Rust's `String`, which is the order its iterator
 * visits them in.
 */
module SortedMap {
  import opened Wrappers

  /** Lexicographic order on strings. */
  predicate StrLess(a: string, b: string)
    decreases |a|
  {
    if a == [] then b != []
    else if b == [] then false
    else if a[0] < b[0] then true
    else a[0] == b[0] && StrLess(a[1..], b[1..])
  }

  lemma {:induction false} StrLessIrreflexive(a: string)
    ensures !StrLess(a, a)
    decreases |a|
  {
    if a != [] {
      StrLessIrreflexive(a[1..]);
    }
  }

  lemma {:induction false} StrLessTrans(a: string, b: string, c: string)
    requires StrLess(a, b) && StrLess(b, c)
    ensures StrLess(a, c)
    decreases |a|
  {
    if a != [] && b != [] && c != [] && a[0] == b[0] && b[0] == c[0] {
      StrLessTrans(a[1..], b[1..], c[1..]);
    }
  }

  lemma {:induction false} StrLessTotal(a: string, b: string)
    ensures a == b || StrLess(a, b) || StrLess(b, a)
    decreases |a|
  {
    if a != [] && b != [] && a[0] == b[0] {
      StrLessTotal(a[1..], b[1..]);
      if a[1..] == b[1..] {
        assert a == [a[0]] + a[1..] && b == [b[0]] + b[1..];
      }
    }
  }

  type Pairs<V> = seq<(string, V)>

  predicate Sorted<V>(m: Pairs<V>)
  {
    forall i, j :: 0 <= i < j < |m| ==> StrLess(m[i].0, m[j].0)
  }

  function Keys<V>(m: Pairs<V>): set<string>
  {
    set i | 0 <= i < |m| :: m[i].0
  }

  /** The value stored under `k`. */
  function Get<V>(m: Pairs<V>, k: string): Option<V>
    decreases |m|
  {
    if m == [] then None else if m[0].0 == k then Some(m[0].1) else Get(m[1..], k)
  }

  /** `insert`: a new key goes to its place in the order, an existing key gets the new value. */
  function Insert<V>(m: Pairs<V>, k: string, v: V): (r: Pairs<V>)
    decreases |m|
  {
    if m == [] then [(k, v)]
    else if m[0].0 == k then [(k, v)] + m[1..]
    else if StrLess(k, m[0].0) then [(k, v)] + m
    else [m[0]] + Insert(m[1..], k, v)
  }

  lemma KeysCons<V>(m: Pairs<V>)
    requires m != []
    ensures Keys(m) == {m[0].0} + Keys(m[1..])
  {
    forall x | x in Keys(m) ensures x in {m[0].0} + Keys(m[1..]) {
      var i :| 0 <= i < |m| && m[i].0 == x;
      if i > 0 { assert m[1..][i - 1] == m[i]; }
    }
    forall x | x in Keys(m[1..]) ensures x in Keys(m) {
      var i :| 0 <= i < |m[1..]| && m[1..][i].0 == x;
      assert m[i + 1] == m[1..][i];
    }
  }

  lemma {:induction false} InsertKeys<V>(m: Pairs<V>, k: string, v: V)
    requires Sorted(m)
    ensures Keys(Insert(m, k, v)) == Keys(m) + {k}
    ensures |Insert(m, k, v)| == if k in Keys(m) then |m| else |m| + 1
    decreases |m|
  {
    if m == [] {
      KeysCons(Insert(m, k, v));
      assert Insert(m, k, v)[1..] == [];
    } else {
      var r := Insert(m, k, v);
      var t := m[1..];
      KeysCons(m);
      KeysCons(r);
      if m[0].0 == k {
        assert r[1..] == t;
      } else if StrLess(k, m[0].0) {
        assert r[1..] == m;
        forall j | 0 <= j < |m| ensures m[j].0 != k {
          if j > 0 { StrLessTrans(k, m[0].0, m[j].0); }
          StrLessIrreflexive(k);
        }
      } else {
        InsertKeys(t, k, v);
        assert r[1..] == Insert(t, k, v);
      }
    }
  }

  /** Inserting keeps the pairs in strictly increasing key order. */
  lemma {:induction false} InsertSorted<V>(m: Pairs<V>, k: string, v: V)
    requires Sorted(m)
    ensures Sorted(Insert(m, k, v))
    ensures forall i :: 0 <= i < |Insert(m, k, v)| ==> Insert(m, k, v)[i].0 == k || Insert(m, k, v)[i].0 in Keys(m)
    decreases |m|
  {
    var r := Insert(m, k, v);
    if m != [] {
      var t := m[1..];
      if m[0].0 == k {
        forall i | 0 < i < |r| ensures r[i].0 == m[i].0 { }
      } else if StrLess(k, m[0].0) {
        forall i, j | 0 <= i < j < |r| ensures StrLess(r[i].0, r[j].0) {
          if i == 0 && j > 1 { StrLessTrans(k, m[0].0, m[j - 1].0); }
        }
      } else {
        StrLessTotal(k, m[0].0);
        InsertSorted(t, k, v);
        var rt := Insert(t, k, v);
        assert r == [m[0]] + rt;
        forall i | 0 <= i < |rt| ensures StrLess(m[0].0, rt[i].0) {
          if rt[i].0 != k {
            var j :| 0 <= j < |t| && t[j].0 == rt[i].0;
            assert t[j] == m[j + 1];
          }
        }
        forall i | 0 <= i < |r| ensures r[i].0 == k || r[i].0 in Keys(m) {
          if i > 0 && rt[i - 1].0 != k {
            var j :| 0 <= j < |t| && t[j].0 == rt[i - 1].0;
            assert t[j] == m[j + 1];
          }
        }
      }
    }
  }

  /** After inserting, `k` maps to `v` and every other key keeps its value. */
  lemma {:induction false} InsertGet<V>(m: Pairs<V>, k: string, v: V, k': string)
    ensures Get(Insert(m, k, v), k') == if k' == k then Some(v) else Get(m, k')
    decreases |m|
  {
    if m != [] && m[0].0 != k && !StrLess(k, m[0].0) {
      InsertGet(m[1..], k, v, k');
      assert ([m[0]] + Insert(m[1..], k, v))[1..] == Insert(m[1..], k, v);
    } else if m != [] && StrLess(k, m[0].0) {
      assert ([(k, v)] + m)[1..] == m;
    } else if m != [] {
      assert ([(k, v)] + m[1..])[1..] == m[1..];
    }
  }
}
