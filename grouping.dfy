/** Grouping invoices into contracts: the browser keys an invoice by `project:buyer:seller`
    (ContractGenerator.tsx), the service by `project_buyerTaxID_sellerTaxID`
    (ContractService.ts), each filling a dictionary whose groups keep the input order. Every
    key holds its separator twice, so it is never an array-index-like property name and the
    dictionary lists its keys in the order they were first added. */
module Grouping {
  import opened Strings
  import opened Invoices

  /** The group keyed `k`: the invoices with that key, in input order. */
  function Members<K(==), V>(invoices: seq<V>, keyOf: V -> K, k: K): seq<V>
  {
    if |invoices| == 0 then []
    else
      var last := invoices[|invoices| - 1];
      Members(invoices[..|invoices| - 1], keyOf, k) + (if keyOf(last) == k then [last] else [])
  }

  /** What the dictionary-filling loop keeps true after the first `i` invoices: the keys are
      those seen, in first-seen order and each once, and each group holds its key's invoices. */
  ghost predicate Filed<K(!new), V>(groups: map<K, seq<V>>, order: seq<K>, invoices: seq<V>, keyOf: V -> K, i: nat)
    requires i <= |invoices|
  {
    (forall k :: k in groups <==> k in order)
    && (forall k :: k in groups ==> groups[k] == Members(invoices[..i], keyOf, k))
    && (forall j :: 0 <= j < i ==> keyOf(invoices[j]) in groups)
    && (forall x, y :: 0 <= x < y < |order| ==> order[x] != order[y])
  }

  /** The dictionary-filling loop: the groups and the order in which their keys were added. */
  method GroupBy<K(==, !new), V>(invoices: seq<V>, keyOf: V -> K) returns (groups: map<K, seq<V>>, order: seq<K>)
    ensures forall k :: k in groups <==> k in order
    ensures forall k :: k in groups ==> groups[k] == Members(invoices, keyOf, k)
    ensures forall i :: 0 <= i < |invoices| ==> keyOf(invoices[i]) in order
    ensures forall x, y :: 0 <= x < y < |order| ==> order[x] != order[y]
  {
    groups := map[];
    order := [];
    for i := 0 to |invoices|
      invariant Filed(groups, order, invoices, keyOf, i)
    {
      var key := keyOf(invoices[i]);
      var groups', order' := Push(groups, order, key, invoices[i]);
      PushKeys(groups, order, invoices, keyOf, i);
      PushMembers(groups, order, invoices, keyOf, i);
      groups, order := groups', order';
    }
    assert invoices[..|invoices|] == invoices;
  }

  /** The groups after pushing an invoice onto the group of `key`. */
  function Pushed<K(==), V>(groups: map<K, seq<V>>, key: K, invoice: V): map<K, seq<V>>
  {
    groups[key := (if key in groups then groups[key] else []) + [invoice]]
  }

  /** The key order after pushing onto the group of `key`. */
  function Opened<K(==), V>(groups: map<K, seq<V>>, order: seq<K>, key: K): seq<K>
  {
    if key in groups then order else order + [key]
  }

  /** Pushing invoice `i` keeps the keys those seen so far, each once. */
  lemma PushKeys<K(!new), V>(groups: map<K, seq<V>>, order: seq<K>, invoices: seq<V>, keyOf: V -> K, i: nat)
    requires i < |invoices| && Filed(groups, order, invoices, keyOf, i)
    ensures var key := keyOf(invoices[i]);
      var g, o := Pushed(groups, key, invoices[i]), Opened(groups, order, key);
      (forall k :: k in g <==> k in o)
      && (forall j :: 0 <= j < i + 1 ==> keyOf(invoices[j]) in g)
      && (forall x, y :: 0 <= x < y < |o| ==> o[x] != o[y])
  {
  }

  /** Pushing invoice `i` keeps every group equal to its key's invoices. */
  lemma PushMembers<K(!new), V>(groups: map<K, seq<V>>, order: seq<K>, invoices: seq<V>, keyOf: V -> K, i: nat)
    requires i < |invoices| && Filed(groups, order, invoices, keyOf, i)
    ensures var g := Pushed(groups, keyOf(invoices[i]), invoices[i]);
      forall k :: k in g ==> g[k] == Members(invoices[..i + 1], keyOf, k)
  {
    var key := keyOf(invoices[i]);
    var g := Pushed(groups, key, invoices[i]);
    if key !in groups {
      MembersNone(invoices, keyOf, key, i);
    }
    forall k | k in g ensures g[k] == Members(invoices[..i + 1], keyOf, k) {
      MembersStep(invoices, keyOf, i, k);
    }
  }

  lemma MembersStep<K, V>(invoices: seq<V>, keyOf: V -> K, i: nat, k: K)
    requires i < |invoices|
    ensures Members(invoices[..i + 1], keyOf, k) ==
      Members(invoices[..i], keyOf, k) + (if keyOf(invoices[i]) == k then [invoices[i]] else [])
  {
    assert invoices[..i + 1][..i] == invoices[..i];
  }

  lemma {:induction false} MembersNone<K, V>(invoices: seq<V>, keyOf: V -> K, k: K, i: nat)
    requires i <= |invoices|
    requires forall j :: 0 <= j < i ==> keyOf(invoices[j]) != k
    ensures Members(invoices[..i], keyOf, k) == []
  {
    if i > 0 {
      MembersStep(invoices, keyOf, i - 1, k);
      MembersNone(invoices, keyOf, k, i - 1);
    }
  }

  /** Pushing an invoice onto the group of its key, opening the group when it is new. */
  method Push<K(==), V>(groups: map<K, seq<V>>, order: seq<K>, key: K, invoice: V) returns (groups': map<K, seq<V>>, order': seq<K>)
    ensures groups' == Pushed(groups, key, invoice)
    ensures order' == Opened(groups, order, key)
  {
    groups', order' := groups, order;
    if key !in groups' {
      groups' := groups'[key := []];
      order' := order' + [key];
    }
    groups' := groups'[key := groups'[key] + [invoice]];
  }

  /** A group holds every invoice of its key, as often as the input does, and no other: with
      the keys distinct, every invoice lies in exactly one group. */
  lemma {:induction false} Partition<K, V>(invoices: seq<V>, keyOf: V -> K, k: K)
    ensures forall x :: (multiset(Members(invoices, keyOf, k))[x] ==
      if keyOf(x) == k then multiset(invoices)[x] else 0)
  {
    if |invoices| > 0 {
      var n := |invoices| - 1;
      Partition(invoices[..n], keyOf, k);
      assert invoices == invoices[..n] + [invoices[n]];
    }
  }

  // ---------------------------------------------------------------- the two keys

  /** The browser's key, `${project}:${buyer}:${seller}`. */
  function ClientKey(invoice: Invoice): string
  {
    invoice.project + ":" + invoice.buyer + ":" + invoice.seller
  }

  /** The service's key, `${project}_${buyerTaxID}_${sellerTaxID}`. */
  function ServiceKey(invoice: ServiceInvoice): string
  {
    invoice.project + "_" + invoice.buyerTaxID + "_" + invoice.sellerTaxID
  }

  method GroupInvoices(invoices: seq<Invoice>) returns (groups: map<string, seq<Invoice>>, order: seq<string>)
    ensures forall k :: k in groups <==> k in order
    ensures forall k :: k in groups ==> groups[k] == Members(invoices, ClientKey, k)
    ensures forall i :: 0 <= i < |invoices| ==> ClientKey(invoices[i]) in order
    ensures forall x, y :: 0 <= x < y < |order| ==> order[x] != order[y]
  {
    groups, order := GroupBy(invoices, ClientKey);
  }

  method GroupInvoicesByProject(invoices: seq<ServiceInvoice>) returns (groups: map<string, seq<ServiceInvoice>>, order: seq<string>)
    ensures forall k :: k in groups <==> k in order
    ensures forall k :: k in groups ==> groups[k] == Members(invoices, ServiceKey, k)
    ensures forall i :: 0 <= i < |invoices| ==> ServiceKey(invoices[i]) in order
    ensures forall x, y :: 0 <= x < y < |order| ==> order[x] != order[y]
  {
    groups, order := GroupBy(invoices, ServiceKey);
  }

  /** A key is its three fields joined by the separator. */
  lemma KeyParts(a: string, b: string, c: string, sep: char)
    requires NoChar(a, sep) && NoChar(b, sep) && NoChar(c, sep)
    ensures Split(a + [sep] + b + [sep] + c, sep) == [a, b, c]
  {
    var parts := [a, b, c];
    assert parts[1..] == [b, c] && parts[1..][1..] == [c];
    assert Join([b, c], [sep]) == b + [sep] + c;
    assert Join(parts, [sep]) == a + [sep] + (b + [sep] + c);
    assert a + [sep] + (b + [sep] + c) == a + [sep] + b + [sep] + c;
    assert forall k :: 0 <= k < 3 ==> NoChar(parts[k], sep);
    SplitJoin(parts, sep);
  }

  /** Invoices with the same project, buyer and seller share a group; when no field holds a
      colon, invoices share a group only then. */
  lemma ClientKeySame(p: Invoice, q: Invoice)
    ensures p.project == q.project && p.buyer == q.buyer && p.seller == q.seller ==> ClientKey(p) == ClientKey(q)
    ensures (NoChar(p.project, ':') && NoChar(p.buyer, ':') && NoChar(p.seller, ':') &&
      NoChar(q.project, ':') && NoChar(q.buyer, ':') && NoChar(q.seller, ':') && ClientKey(p) == ClientKey(q)) ==>
      p.project == q.project && p.buyer == q.buyer && p.seller == q.seller
  {
    if NoChar(p.project, ':') && NoChar(p.buyer, ':') && NoChar(p.seller, ':') &&
      NoChar(q.project, ':') && NoChar(q.buyer, ':') && NoChar(q.seller, ':') && ClientKey(p) == ClientKey(q) {
      KeyParts(p.project, p.buyer, p.seller, ':');
      KeyParts(q.project, q.buyer, q.seller, ':');
    }
  }

  /** The same for the service's key and the underscore. */
  lemma ServiceKeySame(p: ServiceInvoice, q: ServiceInvoice)
    ensures p.project == q.project && p.buyerTaxID == q.buyerTaxID && p.sellerTaxID == q.sellerTaxID ==> ServiceKey(p) == ServiceKey(q)
    ensures (NoChar(p.project, '_') && NoChar(p.buyerTaxID, '_') && NoChar(p.sellerTaxID, '_') &&
      NoChar(q.project, '_') && NoChar(q.buyerTaxID, '_') && NoChar(q.sellerTaxID, '_') && ServiceKey(p) == ServiceKey(q)) ==>
      p.project == q.project && p.buyerTaxID == q.buyerTaxID && p.sellerTaxID == q.sellerTaxID
  {
    if NoChar(p.project, '_') && NoChar(p.buyerTaxID, '_') && NoChar(p.sellerTaxID, '_') &&
      NoChar(q.project, '_') && NoChar(q.buyerTaxID, '_') && NoChar(q.sellerTaxID, '_') && ServiceKey(p) == ServiceKey(q) {
      KeyParts(p.project, p.buyerTaxID, p.sellerTaxID, '_');
      KeyParts(q.project, q.buyerTaxID, q.sellerTaxID, '_');
    }
  }

  /** A project name holding an underscore can put invoices of different projects and
      taxpayers under one key. */
  lemma ServiceKeysCollide()
    ensures var p := ServiceInvoice("a_b", "c", "d", "", "");
      var q := ServiceInvoice("a", "b_c", "d", "", "");
      ServiceKey(p) == ServiceKey(q) && p.project != q.project
  {
    var p := ServiceInvoice("a_b", "c", "d", "", "");
    var q := ServiceInvoice("a", "b_c", "d", "", "");
    assert ServiceKey(p) == ['a', '_', 'b', '_', 'c', '_', 'd'] == ServiceKey(q);
  }
}
