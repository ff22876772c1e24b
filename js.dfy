/** The JavaScript built-ins the resolvers are written with: plain objects,
    `Object.entries`, `Array.prototype.map` and `Array.prototype.filter`. */
module Js {
  import opened Wrappers

  /** A plain object: its own enumerable keys in the order `Object.entries`
      lists them and the value stored under each key. */
  datatype Obj<V> = Obj(keys: seq<string>, props: map<string, V>) {

    /** Every own key occurs once in the key order, and the key order lists
        exactly the stored keys. */
    predicate Valid() {
      && (forall i, j :: 0 <= i < j < |keys| ==> keys[i] != keys[j])
      && (forall i :: 0 <= i < |keys| ==> keys[i] in props)
      && (forall k :: k in props ==> k in keys)
    }
  }

  /** `o[key]` for an own key; a missing key reads as `undefined`. */
  function Get<V>(o: Obj<V>, key: string): (r: Option<V>)
    ensures r.Some? <==> key in o.props
    ensures r.Some? ==> r.value == o.props[key]
  {
    if key in o.props then Some(o.props[key]) else None
  }

  /** Key/value lists without a repeated key, as `Object.entries` yields. */
  predicate DistinctKeys<V>(entries: seq<(string, V)>) {
    forall i, j :: 0 <= i < j < |entries| ==> entries[i].0 != entries[j].0
  }

  /** `Object.entries(o)`: the key/value pairs in key order. */
  function Entries<V>(o: Obj<V>): (r: seq<(string, V)>)
    requires o.Valid()
    ensures |r| == |o.keys| && DistinctKeys(r)
    ensures forall i :: 0 <= i < |r| ==> r[i].0 == o.keys[i] && r[i].0 in o.props && r[i].1 == o.props[o.keys[i]]
  {
    Pairs(o.keys, o.props)
  }

  /** The pair of each key of `keys` with its value in `props`. */
  function Pairs<V>(keys: seq<string>, props: map<string, V>): (r: seq<(string, V)>)
    requires forall i :: 0 <= i < |keys| ==> keys[i] in props
    ensures |r| == |keys|
    ensures forall i :: 0 <= i < |r| ==> r[i].0 == keys[i] && r[i].0 in props && r[i].1 == props[keys[i]]
  {
    if keys == [] then [] else [(keys[0], props[keys[0]])] + Pairs(keys[1..], props)
  }

  /** The position of an own key among the entries. */
  lemma KeyIndex<V>(o: Obj<V>, key: string) returns (i: nat)
    requires o.Valid() && key in o.props
    ensures i < |Entries(o)| && Entries(o)[i].0 == key
  {
    i :| i < |o.keys| && o.keys[i] == key;
  }

  /** `s.map(f)`. */
  function Map<A, B>(s: seq<A>, f: A -> B): (r: seq<B>)
    ensures |r| == |s|
    ensures forall i :: 0 <= i < |s| ==> r[i] == f(s[i])
  {
    if s == [] then [] else [f(s[0])] + Map(s[1..], f)
  }

  /** `r` keeps some of the elements of `s`, in the order they have in `s`. */
  predicate Subsequence<A(==)>(r: seq<A>, s: seq<A>)
    decreases |s|
  {
    if r == [] then true
    else if s == [] then false
    else (r[0] == s[0] && Subsequence(r[1..], s[1..])) || Subsequence(r, s[1..])
  }

  /** `s.filter(p)`: the elements of `s` that satisfy `p`, in their order in
      `s`, each kept as many times as it occurs there. */
  function Filter<A(==)>(s: seq<A>, p: A -> bool): (r: seq<A>)
    ensures Subsequence(r, s)
    ensures forall x :: x in r ==> x in s && p(x)
    ensures forall x :: x in s && p(x) ==> x in r
    ensures forall x :: x in s ==> multiset(r)[x] == if p(x) then multiset(s)[x] else 0
  {
    if s == [] then []
    else
      assert s == [s[0]] + s[1..];
      if p(s[0]) then [s[0]] + Filter(s[1..], p)
      else Filter(s[1..], p)
  }

  /** `Object.entries(o).map(([k, v]) => f(k, v))`: one projected element per
      entry, in key order. */
  function MapEntries<V, E(==)>(o: Obj<V>, f: (string, V) -> E): (r: seq<E>)
    requires o.Valid()
    ensures |r| == |o.keys|
    ensures forall i :: 0 <= i < |r| ==> o.keys[i] in o.props && r[i] == f(o.keys[i], o.props[o.keys[i]])
    ensures forall e :: e in r ==> exists k :: k in o.props && e == f(k, o.props[k])
    ensures forall k :: k in o.props ==> f(k, o.props[k]) in r
  {
    var r := Map(Entries(o), (entry: (string, V)) => f(entry.0, entry.1));
    assert forall k :: k in o.props ==> f(k, o.props[k]) in r by {
      forall k | k in o.props
        ensures f(k, o.props[k]) in r
      {
        var i :| 0 <= i < |o.keys| && o.keys[i] == k;
        assert r[i] == f(k, o.props[k]);
      }
    }
    r
  }

  /** A subsequence is no longer than the sequence it is taken from. */
  lemma {:induction false} SubsequenceLength<A>(r: seq<A>, s: seq<A>)
    requires Subsequence(r, s)
    ensures |r| <= |s|
    decreases |s|
  {
    if r != [] {
      if r[0] == s[0] && Subsequence(r[1..], s[1..]) {
        SubsequenceLength(r[1..], s[1..]);
      } else {
        SubsequenceLength(r, s[1..]);
      }
    }
  }

  /** Filtering with a predicate every element satisfies returns the
      sequence unchanged. */
  lemma {:induction false} FilterKeepsAll<A>(s: seq<A>, p: A -> bool)
    requires forall x :: x in s ==> p(x)
    ensures Filter(s, p) == s
  {
    if s != [] {
      FilterKeepsAll(s[1..], p);
    }
  }

  /** Filtering before mapping equals mapping before filtering, when the two
      predicates agree through the mapping. */
  lemma {:induction false} FilterThenMap<A, B>(s: seq<A>, f: A -> B, p: A -> bool, q: B -> bool)
    requires forall x :: x in s ==> p(x) == q(f(x))
    ensures Map(Filter(s, p), f) == Filter(Map(s, f), q)
  {
    if s != [] {
      FilterThenMap(s[1..], f, p, q);
      assert Map(s, f) == [f(s[0])] + Map(s[1..], f);
      if p(s[0]) {
        assert Map(Filter(s, p), f) == [f(s[0])] + Map(Filter(s[1..], p), f);
      }
    }
  }
}
