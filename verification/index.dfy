/**
 * A dictionary built from a list by keying each element, as `{key(x): x for x in xs}` builds it:
 * a later element with the same key replaces the earlier value but the key keeps the place of
 * its first insertion. Also the two ways the store reads such a dictionary back: its values in
 * key order, and a list of ids mapped through it with unknown ids dropped.
 */
module Index {

  /** The ids of `xs`, as a set. */
  function KeySet<V>(xs: seq<V>, key: V -> string): set<string> {
    set i | 0 <= i < |xs| :: key(xs[i])
  }

  /** The dictionary the comprehension builds. */
  function IndexOf<V(==)>(xs: seq<V>, key: V -> string): (m: map<string, V>)
    ensures m.Keys == KeySet(xs, key)
    ensures forall k :: k in m ==> key(m[k]) == k
    ensures forall k :: k in m ==> m[k] in xs
  {
    if xs == [] then map[]
    else
      var init, last := xs[..|xs| - 1], xs[|xs| - 1];
      assert KeySet(xs, key) == KeySet(init, key) + {key(last)} by {
        assert forall i :: 0 <= i < |init| ==> init[i] == xs[i];
      }
      IndexOf(init, key)[key(last) := last]
  }

  /** The order in which the dictionary's keys were first inserted. */
  function KeyOrder<V(==)>(xs: seq<V>, key: V -> string): (order: seq<string>)
    ensures forall i, j :: 0 <= i < j < |order| ==> order[i] != order[j]
    ensures forall k :: k in order <==> k in IndexOf(xs, key)
  {
    if xs == [] then []
    else
      var init := KeyOrder(xs[..|xs| - 1], key);
      var k := key(xs[|xs| - 1]);
      if k in init then init else init + [k]
  }

  /**
   * `order` lists the keys of `m` once each, and every value is stored under its own key:
   * the shape of each dictionary the store keeps.
   */
  ghost predicate IsIndex<V>(m: map<string, V>, order: seq<string>, key: V -> string) {
    && (forall i, j :: 0 <= i < j < |order| ==> order[i] != order[j])
    && (forall k :: k in order <==> k in m)
    && (forall k :: k in m ==> key(m[k]) == k)
  }

  /** Building the dictionary one element at a time, in list order. */
  method BuildIndex<V(==)>(xs: seq<V>, key: V -> string) returns (m: map<string, V>, order: seq<string>)
    ensures m == IndexOf(xs, key) && order == KeyOrder(xs, key)
    ensures IsIndex(m, order, key)
  {
    m, order := map[], [];
    for i := 0 to |xs|
      invariant m == IndexOf(xs[..i], key) && order == KeyOrder(xs[..i], key)
    {
      assert xs[..i + 1][..i] == xs[..i];
      var k := key(xs[i]);
      if k !in m {
        order := order + [k];
      }
      m := m[k := xs[i]];
    }
    assert xs[..|xs|] == xs;
  }

  /**
   * Duplicate keys: an element that no later element shares a key with is the value stored
   * under its key (the last one wins).
   */
  lemma {:induction false} LastWins<V>(xs: seq<V>, key: V -> string, i: nat)
    requires i < |xs|
    requires forall j :: i < j < |xs| ==> key(xs[j]) != key(xs[i])
    ensures key(xs[i]) in IndexOf(xs, key) && IndexOf(xs, key)[key(xs[i])] == xs[i]
  {
    if i < |xs| - 1 {
      var init := xs[..|xs| - 1];
      assert init[i] == xs[i];
      LastWins(init, key, i);
    }
  }

  /** The values of `m` in the order `order` gives: `list(d.values())`. */
  function ValuesInOrder<V>(order: seq<string>, m: map<string, V>): (r: seq<V>)
    requires forall k :: k in order ==> k in m
    ensures |r| == |order|
    ensures forall i :: 0 <= i < |r| ==> r[i] == m[order[i]]
  {
    seq(|order|, i requires 0 <= i < |order| => m[order[i]])
  }

  /** Listing an index gives every stored value, each exactly once, and nothing else. */
  lemma ValuesOfIndex<V>(m: map<string, V>, order: seq<string>, key: V -> string)
    requires IsIndex(m, order, key)
    ensures forall k :: k in m ==> m[k] in ValuesInOrder(order, m)
    ensures forall v :: v in ValuesInOrder(order, m) ==> key(v) in m && m[key(v)] == v
    ensures forall i, j :: 0 <= i < j < |order| ==>
      key(ValuesInOrder(order, m)[i]) != key(ValuesInOrder(order, m)[j])
  {
    var r := ValuesInOrder(order, m);
    forall k | k in m ensures m[k] in r {
      var i :| 0 <= i < |order| && order[i] == k;
      assert r[i] == m[k];
    }
  }

  /** `[m[id] for id in ids if id in m]`, in the order of `ids`, repeats kept. */
  function Resolve<V(==)>(ids: seq<string>, m: map<string, V>): (r: seq<V>)
    ensures |r| <= |ids|
    ensures forall v :: v in r ==> v in m.Values
  {
    if ids == [] then []
    else
      var init, last := ids[..|ids| - 1], ids[|ids| - 1];
      Resolve(init, m) + (if last in m then [m[last]] else [])
  }

  /** Every known id among `ids` contributes its value. */
  lemma {:induction false} ResolveFindsKnown<V>(ids: seq<string>, m: map<string, V>, id: string)
    requires id in ids && id in m
    ensures m[id] in Resolve(ids, m)
  {
    var init, last := ids[..|ids| - 1], ids[|ids| - 1];
    if last != id {
      assert ids == init + [last];
      ResolveFindsKnown(init, m, id);
    }
  }

  /** When every id is known nothing is dropped: one value per id, position by position. */
  lemma {:induction false} ResolveAllKnown<V>(ids: seq<string>, m: map<string, V>)
    requires forall id :: id in ids ==> id in m
    ensures |Resolve(ids, m)| == |ids|
    ensures forall i :: 0 <= i < |ids| ==> Resolve(ids, m)[i] == m[ids[i]]
  {
    if ids != [] {
      var init := ids[..|ids| - 1];
      assert forall id :: id in init ==> id in ids;
      ResolveAllKnown(init, m);
    }
  }

  /** An id with no stored value contributes nothing: a dangling reference is dropped. */
  lemma ResolveDropsUnknown<V>(a: seq<string>, id: string, b: seq<string>, m: map<string, V>)
    requires id !in m
    ensures Resolve(a + [id] + b, m) == Resolve(a + b, m)
  {
    ResolveAppend(a + [id], b, m);
    ResolveAppend(a, [id], m);
    ResolveAppend(a, b, m);
    assert [id][..0] == [];
  }

  /** Resolving is compositional: the ids of two lists resolve to the two results in turn. */
  lemma {:induction false} ResolveAppend<V>(a: seq<string>, b: seq<string>, m: map<string, V>)
    ensures Resolve(a + b, m) == Resolve(a, m) + Resolve(b, m)
  {
    if b != [] {
      var init := b[..|b| - 1];
      assert (a + b)[..|a + b| - 1] == a + init;
      ResolveAppend(a, init, m);
    } else {
      assert a + b == a;
    }
  }
}
