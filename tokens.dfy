/** Positioned text tokens as the PDF layer hands them over, and the stable
    `Array.prototype.sort` by one coordinate that every layout step uses. */
module Tokens {

  /** One text fragment: its text and page coordinates, y growing downwards.
      The PDF layer's height is never read by the pipeline and is not kept. */
  datatype Token = Token(text: string, x: int, y: int, width: int)

  datatype Axis = ByX | ByY

  function Key(t: Token, a: Axis): int
  {
    if a == ByX then t.x else t.y
  }

  predicate SortedBy(ts: seq<Token>, a: Axis)
  {
    forall i, j {:trigger Key(ts[i], a), Key(ts[j], a)} :: 0 <= i < j < |ts| ==> Key(ts[i], a) <= Key(ts[j], a)
  }

  /** Puts `t` in front of the first element whose key is not smaller. */
  function Insert(t: Token, ts: seq<Token>, a: Axis): (r: seq<Token>)
    ensures multiset(r) == multiset(ts) + multiset{t}
    ensures |r| == |ts| + 1
  {
    if |ts| == 0 || Key(t, a) <= Key(ts[0], a) then [t] + ts
    else
      assert ts == [ts[0]] + ts[1..];
      [ts[0]] + Insert(t, ts[1..], a)
  }

  lemma {:induction false} InsertSorted(t: Token, ts: seq<Token>, a: Axis)
    requires SortedBy(ts, a)
    ensures SortedBy(Insert(t, ts, a), a)
  {
    if |ts| > 0 && Key(t, a) > Key(ts[0], a) {
      var rest := Insert(t, ts[1..], a);
      assert Insert(t, ts, a) == [ts[0]] + rest;
      InsertSorted(t, ts[1..], a);
      InsertBound(t, ts, a);
      ConsSorted(ts[0], rest, a);
    }
  }

  /** Every token inserted after the head of a sorted sequence has a key no smaller than the
      head's. */
  lemma InsertBound(t: Token, ts: seq<Token>, a: Axis)
    requires SortedBy(ts, a) && |ts| > 0 && Key(t, a) > Key(ts[0], a)
    ensures forall k :: 0 <= k < |Insert(t, ts[1..], a)| ==> Key(ts[0], a) <= Key(Insert(t, ts[1..], a)[k], a)
  {
    var rest := Insert(t, ts[1..], a);
    forall k | 0 <= k < |rest| ensures Key(ts[0], a) <= Key(rest[k], a) {
      assert rest[k] in multiset(rest);
      if rest[k] != t {
        assert rest[k] in multiset(ts[1..]);
        var j :| 0 <= j < |ts[1..]| && ts[1..][j] == rest[k];
        assert ts[j + 1] == rest[k];
      }
    }
  }

  lemma ConsSorted(x: Token, rest: seq<Token>, a: Axis)
    requires SortedBy(rest, a)
    requires forall k :: 0 <= k < |rest| ==> Key(x, a) <= Key(rest[k], a)
    ensures SortedBy([x] + rest, a)
  {
    var s := [x] + rest;
    forall i, j | 0 <= i < j < |s| ensures Key(s[i], a) <= Key(s[j], a) {
      assert s[j] == rest[j - 1];
      if i > 0 {
        assert s[i] == rest[i - 1];
      }
    }
  }

  /** `[...ts].sort((p, q) => p.key - q.key)`: a stable sort by one coordinate. */
  function SortBy(ts: seq<Token>, a: Axis): (r: seq<Token>)
    ensures SortedBy(r, a)
    ensures multiset(r) == multiset(ts)
    ensures |r| == |ts|
  {
    if |ts| == 0 then []
    else
      assert ts == [ts[0]] + ts[1..];
      InsertSorted(ts[0], SortBy(ts[1..], a), a);
      Insert(ts[0], SortBy(ts[1..], a), a)
  }

  /** The tokens whose key is `k`, in their order. */
  function WithKey(ts: seq<Token>, a: Axis, k: int): seq<Token>
  {
    if |ts| == 0 then []
    else (if Key(ts[0], a) == k then [ts[0]] else []) + WithKey(ts[1..], a, k)
  }

  /** Inserting into a sorted sequence puts the token ahead of every token with its key. */
  lemma {:induction false} InsertWithKey(t: Token, ts: seq<Token>, a: Axis, k: int)
    requires SortedBy(ts, a)
    ensures WithKey(Insert(t, ts, a), a, k) == (if Key(t, a) == k then [t] else []) + WithKey(ts, a, k)
  {
    if |ts| == 0 || Key(t, a) <= Key(ts[0], a) {
      WithKeyCons(t, ts, a, k);
    } else {
      var rest := Insert(t, ts[1..], a);
      var ht: seq<Token> := if Key(t, a) == k then [t] else [];
      var h0: seq<Token> := if Key(ts[0], a) == k then [ts[0]] else [];
      var w := WithKey(ts[1..], a, k);
      assert Insert(t, ts, a) == [ts[0]] + rest;
      WithKeyCons(ts[0], rest, a, k);
      WithKeyCons(ts[0], ts[1..], a, k);
      assert [ts[0]] + ts[1..] == ts;
      SortedTail(ts, a);
      InsertWithKey(t, ts[1..], a, k);
      SwapFront(h0, ht, w);
    }
  }

  /** Two prefixes of which one is empty can change places. */
  lemma SwapFront(x: seq<Token>, y: seq<Token>, w: seq<Token>)
    requires x == [] || y == []
    ensures x + (y + w) == y + (x + w)
  {
  }

  lemma WithKeyCons(x: Token, rest: seq<Token>, a: Axis, k: int)
    ensures WithKey([x] + rest, a, k) == (if Key(x, a) == k then [x] else []) + WithKey(rest, a, k)
  {
    assert ([x] + rest)[1..] == rest;
  }

  lemma SortedTail(ts: seq<Token>, a: Axis)
    requires |ts| > 0 && SortedBy(ts, a)
    ensures SortedBy(ts[1..], a)
  {
    forall i, j | 0 <= i < j < |ts[1..]| ensures Key(ts[1..][i], a) <= Key(ts[1..][j], a) {
      assert ts[1..][i] == ts[i + 1] && ts[1..][j] == ts[j + 1];
    }
  }

  /** The sort is stable: the tokens that share a key keep their input order. */
  lemma {:induction false} SortByStable(ts: seq<Token>, a: Axis, k: int)
    ensures WithKey(SortBy(ts, a), a, k) == WithKey(ts, a, k)
  {
    if |ts| > 0 {
      SortByStable(ts[1..], a, k);
      InsertWithKey(ts[0], SortBy(ts[1..], a), a, k);
    }
  }

  /** Sorting keeps the same tokens. */
  lemma SortByMembers(ts: seq<Token>, a: Axis)
    ensures forall t :: t in SortBy(ts, a) <==> t in ts
  {
    var r := SortBy(ts, a);
    forall t ensures t in r <==> t in ts {
      assert t in r <==> t in multiset(r);
      assert t in ts <==> t in multiset(ts);
    }
  }

  function Flatten(rows: seq<seq<Token>>): (r: seq<Token>)
  {
    if |rows| == 0 then [] else Flatten(rows[..|rows| - 1]) + rows[|rows| - 1]
  }

  function Texts(ts: seq<Token>): (r: seq<string>)
    ensures |r| == |ts|
    ensures forall i :: 0 <= i < |ts| ==> r[i] == ts[i].text
  {
    if |ts| == 0 then [] else [ts[0].text] + Texts(ts[1..])
  }

  /** The tokens of `ts` that satisfy `p`, in order (`Array.prototype.filter`). */
  function Filter(ts: seq<Token>, p: Token -> bool): (r: seq<Token>)
    ensures |r| <= |ts|
    ensures forall t :: t in r <==> t in ts && p(t)
    ensures multiset(r) <= multiset(ts)
  {
    if |ts| == 0 then []
    else
      assert ts == [ts[0]] + ts[1..];
      if p(ts[0]) then [ts[0]] + Filter(ts[1..], p) else Filter(ts[1..], p)
  }

  /** The filter works token by token: filtering a concatenation filters each part, in order;
      together with the one-token case this fixes which tokens are kept and their order. */
  lemma {:induction false} FilterAppend(a: seq<Token>, b: seq<Token>, p: Token -> bool)
    ensures Filter(a + b, p) == Filter(a, p) + Filter(b, p)
  {
    if |a| > 0 {
      assert (a + b)[1..] == a[1..] + b;
      assert (a + b)[0] == a[0];
      FilterAppend(a[1..], b, p);
    } else {
      assert a + b == b;
    }
  }

  /** A single token is kept exactly when it satisfies the predicate. */
  lemma FilterOne(t: Token, p: Token -> bool)
    ensures Filter([t], p) == if p(t) then [t] else []
  {
    assert [t][1..] == [];
  }

  /** Filtering a sorted sequence keeps it sorted. */
  lemma {:induction false} FilterSorted(ts: seq<Token>, p: Token -> bool, a: Axis)
    requires SortedBy(ts, a)
    ensures SortedBy(Filter(ts, p), a)
  {
    if |ts| > 0 {
      FilterSorted(ts[1..], p, a);
      var rest := Filter(ts[1..], p);
      forall k | 0 <= k < |rest| ensures Key(ts[0], a) <= Key(rest[k], a) {
        assert rest[k] in ts[1..];
      }
    }
  }

  /** A weaker filter keeps at least as many tokens. */
  lemma {:induction false} FilterMonotone(ts: seq<Token>, p: Token -> bool, q: Token -> bool)
    requires forall t :: p(t) ==> q(t)
    ensures |Filter(ts, p)| <= |Filter(ts, q)|
  {
    if |ts| > 0 {
      FilterMonotone(ts[1..], p, q);
    }
  }
}
