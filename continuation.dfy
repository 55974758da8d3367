/** `processContinuationLines` of InvoiceExtractor.ts. After the items of an invoice are
    assembled, three passes repair what the row grouping split apart: text fragments just below
    an item's name token are merged into its name or spec, loose voltage levels are attached to
    the nearest item above them, and items that share a basic name are given the same voltage.
    The items are updated in place; tokens are identified by their position in the y-sorted
    token list. */
module Continuation {
  import opened Options
  import opened Strings
  import opened Tokens
  import opened Patterns
  import opened Items
  import opened Buckets

  /** `sorted.find(t => t.text === text)`: the first token carrying the text. */
  function FindText(sorted: seq<Token>, text: string): (r: Option<nat>)
    ensures r.Some? ==> r.value < |sorted| && sorted[r.value].text == text
    ensures r.Some? ==> forall j :: 0 <= j < r.value ==> sorted[j].text != text
    ensures r.None? ==> forall j :: 0 <= j < |sorted| ==> sorted[j].text != text
  {
    if |sorted| == 0 then None
    else if sorted[0].text == text then Some(0)
    else
      match FindText(sorted[1..], text)
      case None => None
      case Some(k) => Some(k + 1)
  }

  /** The indices below `n` that satisfy `p`, in increasing order: a `filter` over the sorted
      token list, by position. */
  function Select(n: nat, p: nat -> bool): (r: seq<nat>)
    ensures Within(r, n)
  {
    if n == 0 then [] else Select(n - 1, p) + (if p(n - 1) then [n - 1] else [])
  }

  /** Exactly the indices that satisfy `p` are selected, each once, in increasing order. */
  lemma {:induction false} SelectFacts(n: nat, p: nat -> bool)
    ensures forall j: nat :: j in Select(n, p) <==> j < n && p(j)
    ensures forall a, b :: 0 <= a < b < |Select(n, p)| ==> Select(n, p)[a] < Select(n, p)[b]
  {
    if n > 0 {
      SelectFacts(n - 1, p);
    }
  }

  function Elements(js: seq<nat>): set<nat>
  {
    set j | j in js
  }

  predicate Within(js: seq<nat>, n: nat)
  {
    forall k :: 0 <= k < |js| ==> js[k] < n
  }

  function TextsAt(sorted: seq<Token>, js: seq<nat>): (r: seq<string>)
    requires Within(js, |sorted|)
  {
    seq(|js|, k requires 0 <= k < |js| => sorted[js[k]].text)
  }

  /** `rows.some(r => r.name === text)`. */
  predicate NameTaken(rows: seq<Item>, text: string)
  {
    exists i :: 0 <= i < |rows| && rows[i].name == text
  }

  /** `rows.some(r => r.spec === text)`. */
  predicate SpecTaken(rows: seq<Item>, text: string)
  {
    exists i :: 0 <= i < |rows| && rows[i].spec == text
  }

  /** Strictly below the name token, by less than 25. */
  predicate Below(t: Token, nameY: int)
  {
    nameY < t.y < nameY + 25
  }

  /** A fragment continuing a name: left of x 100, not itself an item (so a keyword line or a
      bare voltage), non-empty and not already some item's name. */
  predicate NameContinuation(t: Token, rows: seq<Item>, nameY: int)
  {
    Below(t, nameY) && t.x < 100 && !IsProductItem(t.text) && |t.text| > 0 && !NameTaken(rows, t.text)
  }

  /** A fragment continuing a spec: in the spec column (x strictly between 100 and 180),
      non-empty and not already some item's spec. */
  predicate SpecContinuation(t: Token, rows: seq<Item>, nameY: int)
  {
    Below(t, nameY) && 100 < t.x < 180 && |t.text| > 0 && !SpecTaken(rows, t.text)
  }

  function NamePick(sorted: seq<Token>, rows: seq<Item>, used: set<nat>, nameY: int): nat -> bool
  {
    (j: nat) => j < |sorted| && NameContinuation(sorted[j], rows, nameY) && j !in used
  }

  function SpecPick(sorted: seq<Token>, rows: seq<Item>, used: set<nat>, nameY: int): nat -> bool
  {
    (j: nat) => j < |sorted| && SpecContinuation(sorted[j], rows, nameY) && j !in used
  }

  /** The unused name continuations below a name token at `nameY`, in y order. */
  function NameLines(sorted: seq<Token>, rows: seq<Item>, used: set<nat>, nameY: int): (r: seq<nat>)
    ensures Within(r, |sorted|)
  {
    Select(|sorted|, NamePick(sorted, rows, used, nameY))
  }

  /** The unused spec continuations below a name token at `nameY`, in y order. */
  function SpecLines(sorted: seq<Token>, rows: seq<Item>, used: set<nat>, nameY: int): (r: seq<nat>)
    ensures Within(r, |sorted|)
  {
    Select(|sorted|, SpecPick(sorted, rows, used, nameY))
  }

  lemma NameLinesFacts(sorted: seq<Token>, rows: seq<Item>, used: set<nat>, nameY: int)
    ensures forall j: nat :: j in NameLines(sorted, rows, used, nameY) <==>
      j < |sorted| && NameContinuation(sorted[j], rows, nameY) && j !in used
  {
    SelectFacts(|sorted|, NamePick(sorted, rows, used, nameY));
  }

  lemma SpecLinesFacts(sorted: seq<Token>, rows: seq<Item>, used: set<nat>, nameY: int)
    ensures forall j: nat :: j in SpecLines(sorted, rows, used, nameY) <==>
      j < |sorted| && SpecContinuation(sorted[j], rows, nameY) && j !in used
  {
    SelectFacts(|sorted|, SpecPick(sorted, rows, used, nameY));
  }

  /** `base += ' ' + texts.join(' ')`, then `.replace(/\s+/g, ' ').trim()`. */
  function Extend(base: string, texts: seq<string>): string
  {
    Normalize(base + " " + Join(texts, " "))
  }

  /** The state of the first pass: the items and the tokens merged so far. */
  datatype Pass = Pass(rows: seq<Item>, used: set<nat>)

  /** The tokens the first pass merges into row `i`: the continuations below the first token
      carrying the row's name. */
  function Picked(sorted: seq<Token>, p: Pass, i: nat): set<nat>
    requires i < |p.rows|
  {
    match FindText(sorted, p.rows[i].name)
    case None => {}
    case Some(n) =>
      Elements(NameLines(sorted, p.rows, p.used, sorted[n].y)) + Elements(SpecLines(sorted, p.rows, p.used, sorted[n].y))
  }

  /** One iteration of the first pass: both kinds of continuation are looked up before either is
      merged; the spec is tightened around `*` after its merge. */
  function MergeRow(sorted: seq<Token>, p: Pass, i: nat): (r: Pass)
    requires i < |p.rows|
    ensures Framed(p.rows, r.rows)
  {
    match FindText(sorted, p.rows[i].name)
    case None => p
    case Some(n) =>
      var names := NameLines(sorted, p.rows, p.used, sorted[n].y);
      var specs := SpecLines(sorted, p.rows, p.used, sorted[n].y);
      var it := MergedItem(sorted, p.rows[i], names, specs);
      FramedUpdate(p.rows, i, it);
      Pass(p.rows[i := it], p.used + Elements(names) + Elements(specs))
  }

  /** The item with its continuations merged: the names into the name, the specs into the spec,
      which is then tightened around `*`. */
  function MergedItem(sorted: seq<Token>, it: Item, names: seq<nat>, specs: seq<nat>): (r: Item)
    requires Within(names, |sorted|) && Within(specs, |sorted|)
    ensures SameFigures(it, r)
  {
    var it1 := if |names| > 0 then it.(name := Extend(it.name, TextsAt(sorted, names))) else it;
    if |specs| > 0 then it1.(spec := TightenTimes(Extend(it1.spec, TextsAt(sorted, specs)))) else it1
  }

  /** The first pass over rows 0 .. k-1. */
  function MergeAll(sorted: seq<Token>, rows: seq<Item>, k: nat): (r: Pass)
    requires k <= |rows|
    ensures Framed(rows, r.rows)
  {
    if k == 0 then Pass(rows, {})
    else
      var p := MergeAll(sorted, rows, k - 1);
      var r := MergeRow(sorted, p, k - 1);
      FramedTrans(rows, p.rows, r.rows);
      r
  }

  /** The columns of an item that the continuation passes never touch. */
  datatype Figures = Figures(unit: string, quantity: string, price: string, amount: string,
                             taxRate: string, tax: string)

  function FiguresOf(it: Item): Figures
  {
    Figures(it.unit, it.quantity, it.price, it.amount, it.taxRate, it.tax)
  }

  /** Two items that agree on everything but name and spec. */
  predicate SameFigures(a: Item, b: Item)
  {
    FiguresOf(a) == FiguresOf(b)
  }

  function FigureRows(rows: seq<Item>): (r: seq<Figures>)
    ensures |r| == |rows|
  {
    seq(|rows|, i requires 0 <= i < |rows| => FiguresOf(rows[i]))
  }

  /** The same items in the same order, only names and specs possibly changed. */
  predicate Framed(before: seq<Item>, after: seq<Item>)
  {
    FigureRows(before) == FigureRows(after)
  }

  lemma FramedTrans(a: seq<Item>, b: seq<Item>, c: seq<Item>)
    requires Framed(a, b) && Framed(b, c)
    ensures Framed(a, c)
  {
  }

  /** Replacing one item by one with the same figures keeps the items framed. */
  lemma FramedUpdate(rows: seq<Item>, i: nat, it: Item)
    requires i < |rows| && SameFigures(rows[i], it)
    ensures Framed(rows, rows[i := it])
  {
    assert FigureRows(rows[i := it]) == FigureRows(rows)[i := FiguresOf(it)];
  }

  /** Framed items are as many and agree on their figures, one by one. */
  lemma FramedFigures(before: seq<Item>, after: seq<Item>, i: nat)
    requires Framed(before, after) && i < |before|
    ensures |after| == |before| && SameFigures(before[i], after[i])
  {
    assert FigureRows(before)[i] == FigureRows(after)[i];
  }

  /** One iteration touches only row `i`, and of it only name and spec; the used set grows by
      exactly the tokens it merged. */
  lemma MergeRowFrame(sorted: seq<Token>, p: Pass, i: nat)
    requires i < |p.rows|
    ensures var r := MergeRow(sorted, p, i);
      (forall j :: 0 <= j < |p.rows| && j != i ==> r.rows[j] == p.rows[j])
      && SameFigures(p.rows[i], r.rows[i])
      && r.used == p.used + Picked(sorted, p, i)
  {
  }

  /** The tokens merged into row `i` were not used before, lie below the row's name token by
      less than 25, left of x 180, and are non-empty. */
  lemma PickedWindow(sorted: seq<Token>, p: Pass, i: nat)
    requires i < |p.rows|
    ensures p.used !! Picked(sorted, p, i)
    ensures forall j :: j in Picked(sorted, p, i) ==>
      var n := FindText(sorted, p.rows[i].name).value;
      j < |sorted| && Below(sorted[j], sorted[n].y) && sorted[j].x < 180 && |sorted[j].text| > 0
  {
    match FindText(sorted, p.rows[i].name)
    case None =>
    case Some(n) =>
      NameLinesFacts(sorted, p.rows, p.used, sorted[n].y);
      SpecLinesFacts(sorted, p.rows, p.used, sorted[n].y);
  }

  lemma {:induction false} MergeAllGrows(sorted: seq<Token>, rows: seq<Item>, i: nat, k: nat)
    requires i <= k <= |rows|
    ensures MergeAll(sorted, rows, i).used <= MergeAll(sorted, rows, k).used
    decreases k - i
  {
    if i < k {
      MergeAllGrows(sorted, rows, i, k - 1);
      var p := MergeAll(sorted, rows, k - 1);
      MergeRowGrows(sorted, p, k - 1);
      SubsetTrans(MergeAll(sorted, rows, i).used, p.used, MergeRow(sorted, p, k - 1).used);
    }
  }

  lemma MergeRowAdds(sorted: seq<Token>, p: Pass, i: nat)
    requires i < |p.rows|
    ensures Picked(sorted, p, i) <= MergeRow(sorted, p, i).used
  {
  }

  lemma DisjointWithin(a: set<nat>, b: set<nat>, c: set<nat>)
    requires a <= b && b !! c
    ensures a !! c
  {
  }

  lemma MergeRowGrows(sorted: seq<Token>, p: Pass, i: nat)
    requires i < |p.rows|
    ensures p.used <= MergeRow(sorted, p, i).used
  {
  }

  lemma SubsetTrans(a: set<nat>, b: set<nat>, c: set<nat>)
    requires a <= b && b <= c
    ensures a <= c
  {
  }

  /** No token is merged into two items. */
  lemma MergedOnce(sorted: seq<Token>, rows: seq<Item>, i: nat, k: nat)
    requires i < k < |rows|
    ensures Picked(sorted, MergeAll(sorted, rows, i), i) !! Picked(sorted, MergeAll(sorted, rows, k), k)
  {
    var p, q := MergeAll(sorted, rows, i), MergeAll(sorted, rows, k);
    MergeRowAdds(sorted, p, i);
    MergeAllGrows(sorted, rows, i + 1, k);
    SubsetTrans(Picked(sorted, p, i), MergeAll(sorted, rows, i + 1).used, q.used);
    PickedWindow(sorted, q, k);
    DisjointWithin(Picked(sorted, p, i), q.used, Picked(sorted, q, k));
  }

  /** The first pass as the loop over the items. */
  method MergeContinuations(sorted: seq<Token>, rows: array<Item>) returns (used: set<nat>)
    modifies rows
    ensures Pass(rows[..], used) == MergeAll(sorted, old(rows[..]), rows.Length)
  {
    ghost var orig := rows[..];
    used := {};
    for i := 0 to rows.Length
      invariant Pass(rows[..], used) == MergeAll(sorted, orig, i)
    {
      used := MergeInto(sorted, rows, used, i);
    }
  }

  /** One iteration of the first pass, on row `i`. */
  method MergeInto(sorted: seq<Token>, rows: array<Item>, used: set<nat>, i: nat) returns (used': set<nat>)
    requires i < rows.Length
    modifies rows
    ensures Pass(rows[..], used') == MergeRow(sorted, Pass(old(rows[..]), used), i)
  {
    used' := used;
    var found := FindText(sorted, rows[i].name);
    if found.Some? {
      var nameY := sorted[found.value].y;
      var names := NameLines(sorted, rows[..], used, nameY);
      var specs := SpecLines(sorted, rows[..], used, nameY);
      var item := rows[i];
      if |names| > 0 {
        item := item.(name := Extend(item.name, TextsAt(sorted, names)));
      }
      if |specs| > 0 {
        item := item.(spec := TightenTimes(Extend(item.spec, TextsAt(sorted, specs))));
      }
      rows[i] := item;
      used' := used + Elements(names) + Elements(specs);
    }
  }

  /** An item's name token, kept for the voltage pass. */
  datatype Anchor = Anchor(row: nat, y: int)

  /** `rows.map(row => ({row, textItem: sorted.find(t => t.text === row.name)}))` without the
      items whose name no token carries, for rows 0 .. k-1. */
  function Anchors(sorted: seq<Token>, rows: seq<Item>, k: nat): (r: seq<Anchor>)
    requires k <= |rows|
    ensures forall m :: 0 <= m < |r| ==> r[m].row < k
  {
    if k == 0 then []
    else
      Anchors(sorted, rows, k - 1)
      + match FindText(sorted, rows[k - 1].name)
        case None => []
        case Some(n) => [Anchor(k - 1, sorted[n].y)]
  }

  /** The anchor closest above `y`: among the anchors strictly above it, the one with the
      greatest y, the first of them on a tie; -1 when none is above. This is the head of the
      anchors above `y` after the stable sort by distance. */
  function Nearest(anchors: seq<Anchor>, y: int): (r: int)
    ensures -1 <= r < |anchors|
    ensures r >= 0 ==> anchors[r].y < y
    ensures r >= 0 ==> forall m :: 0 <= m < |anchors| && anchors[m].y < y ==> anchors[m].y <= anchors[r].y
    ensures r >= 0 ==> forall m :: 0 <= m < r && anchors[m].y < y ==> anchors[m].y < anchors[r].y
    ensures r == -1 ==> forall m :: 0 <= m < |anchors| ==> y <= anchors[m].y
  {
    if |anchors| == 0 then -1
    else
      var best := Nearest(anchors[..|anchors| - 1], y);
      var last := anchors[|anchors| - 1];
      if last.y < y && (best == -1 || last.y > anchors[best].y) then |anchors| - 1 else best
  }

  /** The voltage tokens the first pass left unused, in y order. */
  function VoltagePick(sorted: seq<Token>, used: set<nat>): nat -> bool
  {
    (j: nat) => j < |sorted| && IsVoltage(sorted[j].text) && j !in used
  }

  function VoltageTokens(sorted: seq<Token>, used: set<nat>): (r: seq<nat>)
    ensures Within(r, |sorted|)
  {
    Select(|sorted|, VoltagePick(sorted, used))
  }

  /** The voltage tokens are exactly the unused tokens whose whole text is a voltage. */
  lemma VoltageTokensFacts(sorted: seq<Token>, used: set<nat>)
    ensures forall j: nat :: j in VoltageTokens(sorted, used) <==> j < |sorted| && IsVoltage(sorted[j].text) && j !in used
    ensures forall m :: 0 <= m < |VoltageTokens(sorted, used)| ==> IsVoltage(sorted[VoltageTokens(sorted, used)[m]].text)
  {
    SelectFacts(|sorted|, VoltagePick(sorted, used));
    var vs := VoltageTokens(sorted, used);
    forall m | 0 <= m < |vs| ensures IsVoltage(sorted[vs[m]].text) {
      assert vs[m] in vs;
    }
  }

  predicate Anchored(anchors: seq<Anchor>, n: nat)
  {
    forall m :: 0 <= m < |anchors| ==> anchors[m].row < n
  }

  /** One voltage token: appended to the nearest item above it when that item's name token is
      less than 30 above it and the name does not already contain the voltage. */
  function Attach(sorted: seq<Token>, anchors: seq<Anchor>, rows: seq<Item>, j: nat): (r: seq<Item>)
    requires j < |sorted| && Anchored(anchors, |rows|)
    ensures Framed(rows, r)
  {
    var v := sorted[j];
    var k := Nearest(anchors, v.y);
    if k == -1 then rows
    else
      var a := anchors[k];
      if v.y - a.y < 30 && !Contains(rows[a.row].name, v.text)
      then
        var it := rows[a.row].(name := Normalize(rows[a.row].name + " " + v.text));
        FramedUpdate(rows, a.row, it);
        rows[a.row := it]
      else rows
  }

  /** The voltage loop over the first k voltage tokens. */
  function AttachAll(sorted: seq<Token>, anchors: seq<Anchor>, rows: seq<Item>, vs: seq<nat>, k: nat): (r: seq<Item>)
    requires k <= |vs| && Within(vs, |sorted|) && Anchored(anchors, |rows|)
    ensures Framed(rows, r)
  {
    if k == 0 then rows
    else
      var p := AttachAll(sorted, anchors, rows, vs, k - 1);
      var r := Attach(sorted, anchors, p, vs[k - 1]);
      FramedTrans(rows, p, r);
      r
  }

  /** The second pass: the anchors are taken once, after the first pass. */
  function Attached(sorted: seq<Token>, used: set<nat>, rows: seq<Item>): (r: seq<Item>)
    ensures Framed(rows, r)
  {
    var anchors := Anchors(sorted, rows, |rows|);
    var vs := VoltageTokens(sorted, used);
    AttachAll(sorted, anchors, rows, vs, |vs|)
  }

  /** A voltage goes only to the item nearest above it, and only when that item is less than
      30 away: every other item is left alone. */
  lemma AttachOnlyNearest(sorted: seq<Token>, anchors: seq<Anchor>, rows: seq<Item>, j: nat)
    requires j < |sorted| && Anchored(anchors, |rows|)
    ensures var r := Attach(sorted, anchors, rows, j); var k := Nearest(anchors, sorted[j].y);
      (k == -1 || sorted[j].y - anchors[k].y >= 30 ==> r == rows)
      && (k >= 0 ==> forall i :: 0 <= i < |rows| && i != anchors[k].row ==> r[i] == rows[i])
  {
  }

  /** When the nearest item lacks the voltage, its name afterwards ends with it. */
  lemma AttachAppends(sorted: seq<Token>, anchors: seq<Anchor>, rows: seq<Item>, j: nat)
    requires j < |sorted| && Anchored(anchors, |rows|) && IsVoltage(sorted[j].text)
    requires var k := Nearest(anchors, sorted[j].y);
      k >= 0 && sorted[j].y - anchors[k].y < 30 && !Contains(rows[anchors[k].row].name, sorted[j].text)
    ensures var k := Nearest(anchors, sorted[j].y);
      EndsWith(Attach(sorted, anchors, rows, j)[anchors[k].row].name, sorted[j].text)
  {
    var k := Nearest(anchors, sorted[j].y);
    VoltageEndsName(rows[anchors[k].row].name, sorted[j].text);
  }

  /** A voltage appended after a blank ends the normalised name. */
  lemma VoltageEndsName(name: string, v: string)
    requires IsVoltage(v)
    ensures EndsWith(Normalize(name + " " + v), v)
  {
    VoltageChars(v);
    NormalizeKeepsLastWord(name + " ", v);
  }

  /** The second pass as the loop over the voltage tokens. Marking an attached token as used
      has no further effect (the token list was taken before the loop), so it is not kept. */
  method AttachVoltages(sorted: seq<Token>, used: set<nat>, rows: array<Item>)
    modifies rows
    ensures rows[..] == Attached(sorted, used, old(rows[..]))
  {
    ghost var orig := rows[..];
    var anchors := Anchors(sorted, rows[..], rows.Length);
    var vs := VoltageTokens(sorted, used);
    for k := 0 to |vs|
      invariant rows[..] == AttachAll(sorted, anchors, orig, vs, k)
    {
      AttachToken(sorted, anchors, rows, vs[k]);
    }
  }

  /** One voltage token of the second pass. */
  method AttachToken(sorted: seq<Token>, anchors: seq<Anchor>, rows: array<Item>, j: nat)
    requires j < |sorted| && Anchored(anchors, rows.Length)
    modifies rows
    ensures rows[..] == Attach(sorted, anchors, old(rows[..]), j)
  {
    var v := sorted[j];
    var n := Nearest(anchors, v.y);
    if n >= 0 {
      var a := anchors[n];
      if v.y - a.y < 30 && !Contains(rows[a.row].name, v.text) {
        rows[a.row] := rows[a.row].(name := Normalize(rows[a.row].name + " " + v.text));
      }
    }
  }

  function Names(rows: seq<Item>): (r: seq<string>)
    ensures |r| == |rows|
  {
    seq(|rows|, i requires 0 <= i < |rows| => rows[i].name)
  }

  /** The basic name of every item: the grouping key of the third pass. */
  function BasicNames(names: seq<string>): (r: seq<string>)
    ensures |r| == |names|
  {
    seq(|names|, i requires 0 <= i < |names| => BasicName(names[i]))
  }

  /** `group.find(item => VOLTAGE.test(item.name))` and the voltage matched in its name: the
      voltage of the first member that has one. */
  function GroupVoltage(names: seq<string>, g: seq<nat>): (r: Option<string>)
    requires Within(g, |names|)
  {
    if |g| == 0 then None
    else
      match FindVoltage(names[g[0]])
      case Some(v) => Some(v)
      case None => GroupVoltage(names, g[1..])
  }

  /** The group's voltage is a voltage, and some member's name contains it. */
  lemma {:induction false} GroupVoltageSound(names: seq<string>, g: seq<nat>)
    requires Within(g, |names|) && GroupVoltage(names, g).Some?
    ensures IsVoltage(GroupVoltage(names, g).value)
    ensures exists m :: 0 <= m < |g| && Contains(names[g[m]], GroupVoltage(names, g).value)
  {
    if FindVoltage(names[g[0]]).Some? {
      FindVoltageSound(names[g[0]]);
    } else {
      GroupVoltageSound(names, g[1..]);
      var m :| 0 <= m < |g| - 1 && Contains(names[g[1..][m]], GroupVoltage(names, g).value);
      assert g[1..][m] == g[m + 1];
    }
  }

  /** The name row `i` ends up with after the third pass, `keys` being the basic names: in a
      group of two or more where some member has a voltage, a member lacking that voltage gets
      its basic name followed by it. */
  function Unified(names: seq<string>, keys: seq<string>, i: nat): string
    requires i < |names| == |keys|
  {
    var g := Group(keys, keys[i], |keys|);
    if |g| <= 1 then names[i]
    else
      match GroupVoltage(names, g)
      case None => names[i]
      case Some(v) => WithVoltage(names[i], keys[i], v)
  }

  /** A member's name once its group's voltage `v` is known: kept when it already contains
      `v`, otherwise its basic name followed by `v`. */
  function WithVoltage(name: string, key: string, v: string): string
  {
    if Contains(name, v) then name else key + " " + v
  }

  /** The items after the third pass, given their names and basic names. */
  function UnifiedWith(rows: seq<Item>, names: seq<string>, keys: seq<string>): (r: seq<Item>)
    requires |names| == |keys| == |rows|
    ensures Framed(rows, r)
  {
    seq(|rows|, i requires 0 <= i < |rows| => rows[i].(name := Unified(names, keys, i)))
  }

  function UnifiedRows(rows: seq<Item>): (r: seq<Item>)
    ensures Framed(rows, r)
  {
    var names := Names(rows);
    UnifiedWith(rows, names, BasicNames(names))
  }

  /** Every item keeps its basic name through the third pass, so the groups stay what they
      were. */
  lemma UnifiedKeepsKey(names: seq<string>, keys: seq<string>, i: nat)
    requires keys == BasicNames(names) && i < |names|
    ensures BasicName(Unified(names, keys, i)) == keys[i]
  {
    var g := Group(keys, keys[i], |keys|);
    assert keys[i] == BasicName(names[i]);
    if |g| >= 2 && GroupVoltage(names, g).Some? {
      var v := GroupVoltage(names, g).value;
      GroupVoltageSound(names, g);
      if !Contains(names[i], v) {
        assert Unified(names, keys, i) == keys[i] + " " + v by { assert WithVoltage(names[i], keys[i], v) == keys[i] + " " + v; }
        BasicNameStable(names[i], v);
      } else {
        assert Unified(names, keys, i) == names[i];
      }
    } else {
      assert Unified(names, keys, i) == names[i];
    }
  }

  /** After the third pass every member of a group of two or more with a voltage carries that
      voltage. */
  lemma UnifiedCarriesVoltage(names: seq<string>, keys: seq<string>, i: nat)
    requires i < |names| == |keys|
    ensures var g := Group(keys, keys[i], |keys|);
      |g| >= 2 && GroupVoltage(names, g).Some? ==> Contains(Unified(names, keys, i), GroupVoltage(names, g).value)
  {
    var g := Group(keys, keys[i], |keys|);
    if |g| >= 2 && GroupVoltage(names, g).Some? {
      var v := GroupVoltage(names, g).value;
      if !Contains(names[i], v) {
        assert Unified(names, keys, i) == (keys[i] + " ") + v by { assert WithVoltage(names[i], keys[i], v) == keys[i] + " " + v; }
        ContainsAt((keys[i] + " ") + v, v, |keys[i] + " "|);
      }
    }
  }

  /** The third pass as the source runs it: the groups are collected in a map keyed by basic
      name, then each group of two or more with a voltage is brought into line. The groups are
      disjoint, so the order in which they are visited does not matter. */
  method UnifyVoltages(rows: array<Item>)
    modifies rows
    ensures rows[..] == UnifiedRows(old(rows[..]))
  {
    var names := Names(rows[..]);
    var keys := BasicNames(names);
    UnifyByKeys(rows, names, keys);
  }

  /** Both loops of the third pass, the grouping key of every item given. */
  method UnifyByKeys(rows: array<Item>, names: seq<string>, keys: seq<string>)
    requires names == Names(rows[..]) && |keys| == rows.Length
    modifies rows
    ensures rows[..] == UnifiedWith(old(rows[..]), names, keys)
  {
    ghost var orig := rows[..];
    ghost var target := UnifiedWith(orig, names, keys);
    var groups, order := CollectGroups(keys);
    for g := 0 to |order|
      invariant forall i :: 0 <= i < rows.Length ==> rows[i] == (if keys[i] in order[..g] then target[i] else orig[i])
    {
      assert order[g] !in order[..g];
      UnifyGroup(rows, names, keys, order[g], groups[order[g]]);
      forall i | 0 <= i < rows.Length
        ensures rows[i] == (if keys[i] in order[..g + 1] then target[i] else orig[i])
      {
        InPrefixNext(order, g, keys[i]);
      }
    }
    assert order[..|order|] == order;
  }

  lemma InPrefixNext(order: seq<string>, g: nat, b: string)
    requires g < |order|
    ensures b in order[..g + 1] <==> b in order[..g] || b == order[g]
  {
    assert order[..g + 1] == order[..g] + [order[g]];
  }

  /** One group of the second loop: a group of two or more with a voltage is brought into
      line, any other is left alone. */
  method UnifyGroup(rows: array<Item>, names: seq<string>, keys: seq<string>, b: string, group: seq<nat>)
    requires |names| == |keys| == rows.Length
    requires group == Group(keys, b, |keys|)
    requires forall i :: 0 <= i < rows.Length && keys[i] == b ==> rows[i].name == names[i]
    modifies rows
    ensures forall i :: 0 <= i < rows.Length ==>
      rows[i] == (if keys[i] == b then old(rows[i]).(name := Unified(names, keys, i)) else old(rows[i]))
  {
    GroupFacts(keys, b, |keys|);
    if |group| > 1 {
      var voltage := GroupVoltage(names, group);
      if voltage.Some? {
        UnifyMembers(rows, names, keys, group, voltage.value);
        forall i | 0 <= i < rows.Length && keys[i] == b
          ensures Unified(names, keys, i) == WithVoltage(names[i], keys[i], voltage.value)
        {
        }
        return;
      }
    }
  }

  /** The innermost loop: every member of the group gets the group's voltage. */
  method UnifyMembers(rows: array<Item>, names: seq<string>, keys: seq<string>, group: seq<nat>, v: string)
    requires |names| == |keys| == rows.Length && Within(group, rows.Length)
    requires forall x, y :: 0 <= x < y < |group| ==> group[x] < group[y]
    requires forall m :: 0 <= m < |group| ==> rows[group[m]].name == names[group[m]]
    modifies rows
    ensures forall i :: 0 <= i < rows.Length ==>
      rows[i] == (if i in group then old(rows[i]).(name := WithVoltage(names[i], keys[i], v)) else old(rows[i]))
  {
    ghost var orig := rows[..];
    for m := 0 to |group|
      invariant forall i :: 0 <= i < rows.Length ==>
        rows[i] == (if i in group[..m] then orig[i].(name := WithVoltage(names[i], keys[i], v)) else orig[i])
    {
      var i := group[m];
      assert i !in group[..m];
      if !Contains(rows[i].name, v) {
        rows[i] := rows[i].(name := keys[i] + " " + v);
      }
      assert group[..m + 1] == group[..m] + [i];
    }
    assert group[..|group|] == group;
  }

  /** The whole of `processContinuationLines` on the item list: the same items in the same
      order come back, only names and specs changed. */
  function Processed(tokens: seq<Token>, rows: seq<Item>): (r: seq<Item>)
    ensures Framed(rows, r)
  {
    var sorted := SortBy(tokens, ByY);
    var p := MergeAll(sorted, rows, |rows|);
    var q := Attached(sorted, p.used, p.rows);
    var r := UnifiedRows(q);
    FramedTrans(rows, p.rows, q);
    FramedTrans(rows, q, r);
    r
  }

  method ProcessContinuationLines(tokens: seq<Token>, rows: array<Item>)
    modifies rows
    ensures rows[..] == Processed(tokens, old(rows[..]))
  {
    var sorted := SortBy(tokens, ByY);
    var used := MergeContinuations(sorted, rows);
    AttachVoltages(sorted, used, rows);
    UnifyVoltages(rows);
  }

  /** The passes over a fresh array holding the items, as the callers hand their item list
      over. */
  method ProcessItems(tokens: seq<Token>, items: seq<Item>) returns (r: seq<Item>)
    ensures r == Processed(tokens, items)
  {
    var rows := new Item[|items|](j requires 0 <= j < |items| => items[j]);
    assert rows[..] == items;
    ProcessContinuationLines(tokens, rows);
    r := rows[..];
  }
}
