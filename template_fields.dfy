/** `ensureTemplateFields` of ContractGenerator.tsx: before a template is rendered, every field
    the template needs is given a value when it has none, a placeholder project name is replaced
    by one made of the date, and every goods entry gets every column. */
module TemplateFields {
  import opened Strings

  /** A JavaScript value as the template data holds it. `Missing` is `undefined`, `null`,
      `false` or `NaN`. */
  datatype Value =
    | Missing
    | Text(text: string)
    | Num(number: int)
    | List(elements: seq<Value>)
    | Object(fields: map<string, Value>)

  type Data = map<string, Value>

  /** JavaScript truthiness: the empty text and zero are falsy, every array and object is
      truthy. */
  predicate Truthy(v: Value)
  {
    match v
    case Missing => false
    case Text(s) => s != ""
    case Num(n) => n != 0
    case List(_) => true
    case Object(_) => true
  }

  /** `d[key]`: an absent key reads as `undefined`. */
  function Get(d: Data, key: string): Value
  {
    if key in d then d[key] else Missing
  }

  /** The fields every contract template uses. */
  const RequiredFields: seq<string> := [
    "contractNo", "buyerName", "buyerTaxID", "sellerName", "sellerTaxID",
    "projectName", "projectAddress", "totalAmount", "amountInWords",
    "totalTax", "taxInWords", "totalWithTax", "totalWithTaxInWords",
    "buyerBank", "buyerBankAccount", "sellerBank", "sellerBankAccount",
    "contractDate", "items"]

  /** The columns every goods entry gets. */
  const ItemFields: seq<string> := ["index", "name", "spec", "unit", "quantity", "price", "amount", "taxRate", "tax"]

  const NotGiven := "未提供"
  const UnknownProject := "未知项目"

  /** Each listed key whose value is falsy gets `dflt` of the key; the others keep theirs. */
  function Fill(d: Data, keys: seq<string>, dflt: string -> Value): Data
    decreases |keys|
  {
    if |keys| == 0 then d
    else
      var r := Fill(d, keys[..|keys| - 1], dflt);
      var k := keys[|keys| - 1];
      if Truthy(Get(r, k)) then r else r[k := dflt(k)]
  }

  /** The value of a missing required field: an empty array for `items`, the date for a field
      whose name holds `Date` (`localeDate` stands for `new Date().toLocaleDateString()`), and
      未提供 otherwise. */
  function RequiredDefault(localeDate: string): string -> Value
  {
    k => if k == "items" then List([]) else if Contains(k, "Date") then Text(localeDate) else Text(NotGiven)
  }

  /** The value of a missing column of the goods entry at `index`: its position from 1 for
      `index`, the empty text otherwise. */
  function ItemDefault(index: nat): string -> Value
  {
    k => if k == "index" then Num(index + 1) else Text("")
  }

  /** A project name that is falsy or one of the two placeholders. */
  predicate Placeholder(v: Value)
  {
    !Truthy(v) || v == Text(UnknownProject) || v == Text(NotGiven)
  }

  /** A placeholder project name becomes `合同-` and the day (`isoDay` stands for
      `new Date().toISOString().slice(0, 10)`). */
  function FixProjectName(d: Data, isoDay: string): Data
  {
    if Placeholder(Get(d, "projectName")) then d["projectName" := Text("合同-" + isoDay)] else d
  }

  /** `{ ...item }` with the missing columns filled; spreading anything but an object copies
      nothing here. */
  function SafeItem(item: Value, index: nat): Value
  {
    Object(Fill(if item.Object? then item.fields else map[], ItemFields, ItemDefault(index)))
  }

  /** The safe copies of the goods entries, in order. */
  function SafeItems(els: seq<Value>): (r: seq<Value>)
    ensures |r| == |els|
  {
    seq(|els|, i requires 0 <= i < |els| => SafeItem(els[i], i))
  }

  /** When `items` is an array, each entry replaced by its safe copy. */
  function FillItems(d: Data): Data
  {
    match Get(d, "items")
    case List(els) => d["items" := List(SafeItems(els))]
    case _ => d
  }

  /** The whole function. */
  function EnsureTemplateFields(data: Data, localeDate: string, isoDay: string): Data
  {
    FillItems(FixProjectName(Fill(data, RequiredFields, RequiredDefault(localeDate)), isoDay))
  }

  /** The three steps on a copy of the data: the loop over the required fields, the project
      name, and the map over the goods entries. */
  method EnsureFields(data: Data, localeDate: string, isoDay: string) returns (result: Data)
    ensures result == EnsureTemplateFields(data, localeDate, isoDay)
  {
    result := FillLoop(data, RequiredFields, RequiredDefault(localeDate));
    result := RenameProject(result, isoDay);
    result := CopyItems(result);
  }

  /** `if (!result.projectName || ...) result.projectName = ...`. */
  method RenameProject(d: Data, isoDay: string) returns (r: Data)
    ensures r == FixProjectName(d, isoDay)
  {
    r := d;
    var p := Get(r, "projectName");
    if !Truthy(p) || p == Text(UnknownProject) || p == Text(NotGiven) {
      r := r["projectName" := Text("合同-" + isoDay)];
    }
  }

  /** `if (Array.isArray(result.items)) result.items = ...`. */
  method CopyItems(d: Data) returns (r: Data)
    ensures r == FillItems(d)
  {
    r := d;
    var items := Get(r, "items");
    if items.List? {
      var safe := SafeCopies(items.elements);
      r := r["items" := List(safe)];
    }
  }

  /** `result.items.map((item, index) => ...)`, each entry filled by the loop over its
      columns. */
  method SafeCopies(els: seq<Value>) returns (safe: seq<Value>)
    ensures safe == SafeItems(els)
  {
    safe := [];
    for index := 0 to |els|
      invariant safe == SafeItems(els[..index])
    {
      var fields := FillLoop(if els[index].Object? then els[index].fields else map[], ItemFields, ItemDefault(index));
      assert SafeItems(els[..index + 1]) == SafeItems(els[..index]) + [Object(fields)];
      safe := safe + [Object(fields)];
    }
    assert els[..|els|] == els;
  }

  /** `for (const field of keys) if (!copy[field]) copy[field] = dflt(field)`. */
  method FillLoop(d: Data, keys: seq<string>, dflt: string -> Value) returns (r: Data)
    ensures r == Fill(d, keys, dflt)
  {
    r := d;
    for i := 0 to |keys|
      invariant r == Fill(d, keys[..i], dflt)
    {
      assert keys[..i + 1][..i] == keys[..i];
      if !Truthy(Get(r, keys[i])) {
        r := r[keys[i] := dflt(keys[i])];
      }
    }
    assert keys[..|keys|] == keys;
  }

  // ---------------------------------------------------------------- properties

  /** After filling, every listed key is present; a key that is not listed, or whose value was
      truthy, keeps its value; a listed key whose value was falsy holds its default. */
  lemma {:induction false} FillFacts(d: Data, keys: seq<string>, dflt: string -> Value)
    ensures forall k :: k in keys ==> k in Fill(d, keys, dflt)
    ensures forall k :: k !in keys ==> Get(Fill(d, keys, dflt), k) == Get(d, k)
    ensures forall k :: Truthy(Get(d, k)) ==> Get(Fill(d, keys, dflt), k) == Get(d, k)
    ensures forall k :: k in keys && !Truthy(Get(d, k)) ==> Get(Fill(d, keys, dflt), k) == dflt(k)
    decreases |keys|
  {
    if |keys| > 0 {
      var front := keys[..|keys| - 1];
      FillFacts(d, front, dflt);
      assert keys == front + [keys[|keys| - 1]];
    }
  }

  /** With a date that is not empty, every required field ends up truthy, the fields that are
      not required are untouched, and a required field other than `items` that was truthy keeps
      its value, except a placeholder project name. */
  lemma RequiredFilled(data: Data, localeDate: string, isoDay: string)
    requires localeDate != ""
    ensures var r := EnsureTemplateFields(data, localeDate, isoDay);
      (forall k :: k in RequiredFields ==> Truthy(Get(r, k))) &&
      (forall k :: k !in RequiredFields ==> Get(r, k) == Get(data, k)) &&
      (forall k :: k != "items" && k != "projectName" && Truthy(Get(data, k)) ==> Get(r, k) == Get(data, k))
  {
    var f := Fill(data, RequiredFields, RequiredDefault(localeDate));
    FilledTruthy(data, RequiredFields, RequiredDefault(localeDate));
    assert "items" in RequiredFields && "projectName" in RequiredFields;
    LaterSteps(f, isoDay);
  }

  /** When every default is truthy, every listed key is truthy after filling. */
  lemma FilledTruthy(d: Data, keys: seq<string>, dflt: string -> Value)
    requires forall k :: k in keys ==> Truthy(dflt(k))
    ensures forall k :: k in keys ==> Truthy(Get(Fill(d, keys, dflt), k))
    ensures forall k :: k !in keys ==> Get(Fill(d, keys, dflt), k) == Get(d, k)
    ensures forall k :: Truthy(Get(d, k)) ==> Get(Fill(d, keys, dflt), k) == Get(d, k)
  {
    FillFacts(d, keys, dflt);
  }

  /** The project-name step and the goods step change no key but their own, keep `items`
      truthy and leave a truthy project name truthy. */
  lemma LaterSteps(f: Data, isoDay: string)
    ensures var r := FillItems(FixProjectName(f, isoDay));
      (forall k :: k != "items" && k != "projectName" ==> Get(r, k) == Get(f, k)) &&
      (Truthy(Get(f, "items")) ==> Truthy(Get(r, "items"))) &&
      Truthy(Get(r, "projectName")) &&
      (!Placeholder(Get(f, "projectName")) ==> Get(r, "projectName") == Get(f, "projectName"))
  {
  }

  /** A required field other than `items` and `projectName` that was falsy holds the date when
      its name holds `Date`, and 未提供 otherwise. */
  lemma DefaultsUsed(data: Data, localeDate: string, isoDay: string, k: string)
    requires k in RequiredFields && k != "items" && k != "projectName" && !Truthy(Get(data, k))
    ensures Get(EnsureTemplateFields(data, localeDate, isoDay), k) ==
      Text(if Contains(k, "Date") then localeDate else NotGiven)
  {
    FillFacts(data, RequiredFields, RequiredDefault(localeDate));
  }

  /** The project name is never falsy nor a placeholder afterwards: a placeholder (a missing one
      included, which was first set to 未提供) becomes `合同-` and the day, any other name stays. */
  lemma ProjectNamed(data: Data, localeDate: string, isoDay: string)
    ensures var r := EnsureTemplateFields(data, localeDate, isoDay);
      !Placeholder(Get(r, "projectName")) &&
      Get(r, "projectName") == if Placeholder(Get(data, "projectName")) then Text("合同-" + isoDay) else Get(data, "projectName")
  {
    FilledName(data, localeDate);
    NameStep(Fill(data, RequiredFields, RequiredDefault(localeDate)), isoDay);
    var name := "合同-" + isoDay;
    assert name[0] == '合';
    assert Text(name) != Text(UnknownProject) && Text(name) != Text(NotGiven);
  }

  /** After the last two steps the project name is the day's name exactly when it was a
      placeholder. */
  lemma NameStep(f: Data, isoDay: string)
    ensures Get(FillItems(FixProjectName(f, isoDay)), "projectName") ==
      if Placeholder(Get(f, "projectName")) then Text("合同-" + isoDay) else Get(f, "projectName")
  {
  }

  /** Filling the required fields leaves the project name a placeholder exactly when it was
      one, and any other name as it was. */
  lemma FilledName(data: Data, localeDate: string)
    ensures var f := Get(Fill(data, RequiredFields, RequiredDefault(localeDate)), "projectName");
      Placeholder(f) == Placeholder(Get(data, "projectName")) &&
      (!Placeholder(Get(data, "projectName")) ==> f == Get(data, "projectName"))
  {
    var dflt := RequiredDefault(localeDate);
    FillFacts(data, RequiredFields, dflt);
    assert "projectName" in RequiredFields;
    if !Truthy(Get(data, "projectName")) {
      ProjectNameUndated();
      assert dflt("projectName") == Text(NotGiven);
    }
  }

  /** A falsy `items` becomes the empty array; an array keeps its length and each entry is
      replaced by its safe copy; any other truthy value is left as it is. */
  lemma ItemsFilled(data: Data, localeDate: string, isoDay: string)
    ensures var r := EnsureTemplateFields(data, localeDate, isoDay);
      (!Truthy(Get(data, "items")) ==> Get(r, "items") == List([])) &&
      (Truthy(Get(data, "items")) && !Get(data, "items").List? ==> Get(r, "items") == Get(data, "items")) &&
      (Get(data, "items").List? ==>
        var els := Get(data, "items").elements;
        Get(r, "items").List? && |Get(r, "items").elements| == |els| &&
        forall i :: 0 <= i < |els| ==> Get(r, "items").elements[i] == SafeItem(els[i], i))
  {
    var dflt := RequiredDefault(localeDate);
    FillFacts(data, RequiredFields, dflt);
    assert "items" in RequiredFields;
    var f := Fill(data, RequiredFields, dflt);
    var p := FixProjectName(f, isoDay);
    assert Get(p, "items") == Get(f, "items");
    if !Truthy(Get(data, "items")) {
      assert Get(f, "items") == List([]);
    } else if Get(data, "items").List? {
      assert Get(f, "items") == Get(data, "items");
    }
  }

  /** Every safe entry is an object holding every column; a truthy column keeps its value, a
      missing `index` is the entry's position from 1 and any other missing column is empty. */
  lemma SafeItemFacts(item: Value, index: nat)
    ensures SafeItem(item, index).Object?
    ensures var f := SafeItem(item, index).fields; var g := if item.Object? then item.fields else map[];
      (forall k :: k in ItemFields ==> k in f) &&
      (forall k :: Truthy(Get(g, k)) ==> Get(f, k) == Get(g, k)) &&
      (forall k :: k !in ItemFields ==> Get(f, k) == Get(g, k)) &&
      Truthy(Get(f, "index")) &&
      (!Truthy(Get(g, "index")) ==> Get(f, "index") == Num(index + 1)) &&
      (forall k :: k in ItemFields && k != "index" && !Truthy(Get(g, k)) ==> Get(f, k) == Text(""))
  {
    var g := if item.Object? then item.fields else map[];
    FillFacts(g, ItemFields, ItemDefault(index));
    assert "index" in ItemFields;
  }

  /** The name `projectName` does not hold `Date`, so its default is 未提供. */
  lemma ProjectNameUndated()
    ensures !Contains("projectName", "Date")
  {
    assert NoChar("projectName", 'D');
    Lacking("projectName", "Date");
  }

  /** A text without the first character of `key` does not contain `key`. */
  lemma Lacking(s: string, key: string)
    requires |key| > 0 && NoChar(s, key[0])
    ensures !Contains(s, key)
  {
  }
}
