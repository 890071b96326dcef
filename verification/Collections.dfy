/** Optional values and the sequence and map operations the components share. */
module Collections {

  datatype Option<+T> = None | Some(value: T)

  function GetOr<K, V>(m: map<K, V>, k: K, default: V): V {
    if k in m then m[k] else default
  }

  lemma GetOrUpdate<K, V>(m: map<K, V>, k: K, v: V, k': K, default: V)
    ensures GetOr(m[k := v], k', default) == if k' == k then v else GetOr(m, k', default)
  {
  }

  function AsSeq<T>(x: Option<T>): seq<T> {
    if x.Some? then [x.value] else []
  }

  /** The last `n` items, or all of them when there are fewer. */
  function LastN<T>(xs: seq<T>, n: nat): seq<T> {
    if |xs| <= n then xs else xs[|xs| - n..]
  }

  /** Appending to a deque whose `maxlen` is `n`. */
  function PushBounded<T>(xs: seq<T>, x: T, n: nat): seq<T> {
    LastN(xs + [x], n)
  }

  /** A bounded deque that is pushed every item holds the last `n` of them. */
  lemma PushBoundedIsWindow<T>(xs: seq<T>, x: T, n: nat)
    ensures PushBounded(LastN(xs, n), x, n) == LastN(xs + [x], n)
  {
    var d := LastN(xs, n) + [x];
    if |xs| > n {
      assert d[|d| - n..] == (xs + [x])[|xs| + 1 - n..];
    } else {
      assert d == xs + [x];
    }
  }

  function Flatten<T>(xss: seq<seq<T>>): seq<T> {
    if xss == [] then [] else Flatten(xss[..|xss| - 1]) + xss[|xss| - 1]
  }

  lemma FlattenAppend<T>(xss: seq<seq<T>>, xs: seq<T>)
    ensures Flatten(xss + [xs]) == Flatten(xss) + xs
  {
    assert (xss + [xs])[..|xss|] == xss;
  }

  predicate Distinct<T(==)>(xs: seq<T>) {
    forall i, j :: 0 <= i < j < |xs| ==> xs[i] != xs[j]
  }

  lemma {:induction false} DistinctCardinality<T>(xs: seq<T>)
    requires Distinct(xs)
    ensures |set x | x in xs| == |xs|
  {
    if xs != [] {
      var front := xs[..|xs| - 1];
      DistinctCardinality(front);
      assert (set x | x in xs) == (set x | x in front) + {xs[|xs| - 1]};
      assert xs[|xs| - 1] !in front;
    }
  }

  /** The map after `m[k] := f(k)` for every key of the list in turn. */
  function Put<K, V>(m: map<K, V>, f: K --> V, ks: seq<K>): map<K, V>
    requires forall k :: k in ks ==> f.requires(k)
  {
    if ks == [] then m
    else Put(m, f, ks[..|ks| - 1])[ks[|ks| - 1] := f(ks[|ks| - 1])]
  }

  lemma {:induction false} PutAt<K, V>(m: map<K, V>, f: K --> V, ks: seq<K>)
    requires forall k :: k in ks ==> f.requires(k)
    ensures forall k :: k in Put(m, f, ks) <==> k in m || k in ks
    ensures forall k :: k in Put(m, f, ks) ==> Put(m, f, ks)[k] == if k in ks then f(k) else m[k]
  {
    if ks != [] {
      PutAt(m, f, ks[..|ks| - 1]);
      assert forall k :: k in ks <==> k in ks[..|ks| - 1] || k == ks[|ks| - 1];
    }
  }

  /** One more turn, over distinct keys, is one more update of a key still untouched. */
  lemma PutNext<K, V>(m: map<K, V>, f: K --> V, ks: seq<K>, i: nat)
    requires i < |ks| && Distinct(ks) && forall k :: k in ks ==> f.requires(k)
    ensures Put(m, f, ks[..i + 1]) == Put(m, f, ks[..i])[ks[i] := f(ks[i])]
    ensures ks[i] in m ==> ks[i] in Put(m, f, ks[..i]) && Put(m, f, ks[..i])[ks[i]] == m[ks[i]]
  {
    assert ks[..i + 1][..i] == ks[..i];
    PutAt(m, f, ks[..i]);
  }

  /** The set after every key of the list has in turn been added or discarded, as `keep` says. */
  function Toggle<K>(s: set<K>, keep: K --> bool, ks: seq<K>): set<K>
    requires forall k :: k in ks ==> keep.requires(k)
  {
    if ks == [] then s
    else
      var rest, k := Toggle(s, keep, ks[..|ks| - 1]), ks[|ks| - 1];
      if keep(k) then rest + {k} else rest - {k}
  }

  lemma {:induction false} ToggleAt<K>(s: set<K>, keep: K --> bool, ks: seq<K>)
    requires forall k :: k in ks ==> keep.requires(k)
    ensures forall k :: k in Toggle(s, keep, ks) <==> if k in ks then keep(k) else k in s
  {
    if ks != [] {
      ToggleAt(s, keep, ks[..|ks| - 1]);
      assert forall k :: k in ks <==> k in ks[..|ks| - 1] || k == ks[|ks| - 1];
    }
  }

  lemma ToggleNext<K>(s: set<K>, keep: K --> bool, ks: seq<K>, i: nat)
    requires i < |ks| && Distinct(ks) && forall k :: k in ks ==> keep.requires(k)
    ensures Toggle(s, keep, ks[..i + 1])
         == if keep(ks[i]) then Toggle(s, keep, ks[..i]) + {ks[i]} else Toggle(s, keep, ks[..i]) - {ks[i]}
    ensures ks[i] in Toggle(s, keep, ks[..i]) <==> ks[i] in s
  {
    assert ks[..i + 1][..i] == ks[..i];
    ToggleAt(s, keep, ks[..i]);
  }
}
