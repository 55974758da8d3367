/** Grouping positions by a key, as the third continuation pass of InvoiceExtractor.ts does
    with an object keyed by basic name: each key's positions in order. The keys are listed in the
    order they are first seen, which need not be the order in which JavaScript enumerates the
    object's keys; the groups are disjoint and each is updated on its own, so the visiting order
    does not change the result. */
module Buckets {
  /** The positions 0 .. k-1 whose key is `b`, in order: one group of the third pass. */
  function Group<K(==)>(keys: seq<K>, b: K, k: nat): (r: seq<nat>)
    requires k <= |keys|
    ensures forall x :: 0 <= x < |r| ==> r[x] < k
  {
    if k == 0 then [] else Group(keys, b, k - 1) + (if keys[k - 1] == b then [k - 1] else [])
  }

  /** A group holds exactly the positions carrying its key, each once, in increasing order. */
  lemma {:induction false} GroupFacts<K>(keys: seq<K>, b: K, k: nat)
    requires k <= |keys|
    ensures forall i: nat :: i in Group(keys, b, k) <==> i < k && keys[i] == b
    ensures forall x, y :: 0 <= x < y < |Group(keys, b, k)| ==> Group(keys, b, k)[x] < Group(keys, b, k)[y]
  {
    if k > 0 {
      GroupFacts(keys, b, k - 1);
    }
  }

  /** The first loop of the third pass: every item's index is filed under its key. `order` lists
      each key once (here in order of first appearance; the pass does not depend on that order). */
  method CollectGroups<K(==, !new)>(keys: seq<K>) returns (groups: map<K, seq<nat>>, order: seq<K>)
    ensures forall b :: b in groups <==> b in order
    ensures forall b :: b in groups ==> groups[b] == Group(keys, b, |keys|)
    ensures forall i :: 0 <= i < |keys| ==> keys[i] in order
    ensures forall x, y :: 0 <= x < y < |order| ==> order[x] != order[y]
  {
    groups := map[];
    order := [];
    for i := 0 to |keys|
      invariant Collected(groups, order, keys, i)
    {
      var b := keys[i];
      FileKeys(groups, order, keys, i);
      FileGroups(groups, order, keys, i);
      if b !in groups {
        order := order + [b];
      }
      groups := groups[b := (if b in groups then groups[b] else []) + [i]];
    }
  }

  /** What the first loop keeps true after the first `i` positions. */
  ghost predicate Collected<K(!new)>(groups: map<K, seq<nat>>, order: seq<K>, keys: seq<K>, i: nat)
    requires i <= |keys|
  {
    (forall b :: b in groups <==> b in order)
    && (forall b :: b in groups ==> groups[b] == Group(keys, b, i))
    && (forall j :: 0 <= j < i ==> keys[j] in groups)
    && (forall x, y :: 0 <= x < y < |order| ==> order[x] != order[y])
  }

  /** Filing position `i` keeps the keys those seen so far, each once. */
  lemma FileKeys<K(!new)>(groups: map<K, seq<nat>>, order: seq<K>, keys: seq<K>, i: nat)
    requires i < |keys| && Collected(groups, order, keys, i)
    ensures var b := keys[i];
      var g := groups[b := (if b in groups then groups[b] else []) + [i]];
      var o := if b in groups then order else order + [b];
      (forall c :: c in g <==> c in o)
      && (forall j :: 0 <= j < i + 1 ==> keys[j] in g)
      && (forall x, y :: 0 <= x < y < |o| ==> o[x] != o[y])
  {
  }

  /** Filing position `i` keeps every group equal to its key's positions. */
  lemma FileGroups<K(!new)>(groups: map<K, seq<nat>>, order: seq<K>, keys: seq<K>, i: nat)
    requires i < |keys| && Collected(groups, order, keys, i)
    ensures var b := keys[i];
      var g := groups[b := (if b in groups then groups[b] else []) + [i]];
      forall c :: c in g ==> g[c] == Group(keys, c, i + 1)
  {
    var b := keys[i];
    if b !in groups {
      GroupEmpty(keys, b, i);
    }
  }

  lemma GroupEmpty<K>(keys: seq<K>, b: K, k: nat)
    requires k <= |keys| && forall j :: 0 <= j < k ==> keys[j] != b
    ensures Group(keys, b, k) == []
  {
    GroupFacts(keys, b, k);
  }
}
