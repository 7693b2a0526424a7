/** How the gateway shows a plugin's response in the terminal. An error response is
    reported by its code and message; otherwise the first list in the data becomes a
    table (one column per key of its objects, the common columns first) and any other
    data a list of key/value lines. The written text is abstracted to a `Screen`
    naming what is shown, with colours named rather than encoded. */
module Renderer {
  import opened Wrappers
  import opened Strs
  import opened PluginTypes
  import Sorting
  import PluginErrors

  // ---- Sorted keys (`sort.Strings` over distinct strings) -------------------------------

  /** `k` is the least of `keys` in string order. */
  predicate IsLeast(k: string, keys: set<string>) {
    k in keys && forall j :: j in keys ==> LexLeq(k, j)
  }

  /** String order is a total preorder. */
  lemma LexLeqPreorder()
    ensures Sorting.TotalPreorder(LexLeq)
  {
    forall a, b
      ensures LexLeq(a, b) || LexLeq(b, a)
    {
      LexLeqTotal(a, b);
    }
    forall a, b, c | LexLeq(a, b) && LexLeq(b, c)
      ensures LexLeq(a, c)
    {
      LexLeqTransitive(a, b, c);
    }
  }

  /** A finite non-empty set of strings has a least element. */
  lemma {:induction false} LeastExists(keys: set<string>)
    requires keys != {}
    ensures exists k :: IsLeast(k, keys)
    decreases keys
  {
    var x :| x in keys;
    if keys == {x} {
      assert IsLeast(x, keys);
    } else {
      LeastExists(keys - {x});
      var k :| IsLeast(k, keys - {x});
      LexLeqTotal(x, k);
      if LexLeq(x, k) {
        forall j | j in keys
          ensures LexLeq(x, j)
        {
          if j != x {
            LexLeqTransitive(x, k, j);
          }
        }
        assert IsLeast(x, keys);
      } else {
        assert IsLeast(k, keys);
      }
    }
  }

  /** The least element is unique. */
  lemma LeastUnique(keys: set<string>)
    ensures forall a, b :: IsLeast(a, keys) && IsLeast(b, keys) ==> a == b
  {
    forall a, b | IsLeast(a, keys) && IsLeast(b, keys)
      ensures a == b
    {
      LexLeqAntisymmetric(a, b);
    }
  }

  /** The strings of a set in ascending order, each once. */
  function SortedKeys(keys: set<string>): (r: seq<string>)
    ensures |r| == |keys|
    ensures forall k :: k in r <==> k in keys
    ensures Sorting.SortedBy(r, LexLeq)
    ensures forall i, j :: 0 <= i < j < |r| ==> r[i] != r[j]
    decreases keys
  {
    if keys == {} then []
    else
      LeastExists(keys);
      LeastUnique(keys);
      var k :| IsLeast(k, keys);
      var rest := SortedKeys(keys - {k});
      PrependLeast(k, keys, rest);
      [k] + rest
  }

  /** The least key followed by the others in order is the whole set in order. */
  lemma PrependLeast(k: string, keys: set<string>, rest: seq<string>)
    requires IsLeast(k, keys)
    requires forall x :: x in rest <==> x in keys - {k}
    requires Sorting.SortedBy(rest, LexLeq)
    requires forall i, j :: 0 <= i < j < |rest| ==> rest[i] != rest[j]
    ensures forall x :: x in [k] + rest <==> x in keys
    ensures Sorting.SortedBy([k] + rest, LexLeq)
    ensures forall i, j :: 0 <= i < j < |[k] + rest| ==> ([k] + rest)[i] != ([k] + rest)[j]
  {
    forall j | 0 <= j < |rest|
      ensures rest[j] in keys && rest[j] != k
    {
      assert rest[j] in rest;
    }
  }

  // ---- Formatting values ----------------------------------------------------------------

  /** `formatValue`: the text of a table cell. Missing values, empty strings and empty
      lists are "<none>"; a list is its items' texts joined by commas; an object is
      its `key=value` parts sorted and joined by commas. Numbers keep their JSON text. */
  function FormatValue(v: Value): string
    decreases v
  {
    match v
    case Null => "<none>"
    case Str(s) => if s == "" then "<none>" else s
    case Bool(b) => if b then "true" else "false"
    case Num(text) => text
    case List(items) =>
      if items == [] then "<none>"
      else Join(seq(|items|, i requires 0 <= i < |items| => FormatValue(items[i])), ",")
    case Obj(fields) =>
      var keys := SortedKeys(fields.Keys);
      Join(Sorting.InsertionSort(seq(|keys|, i requires 0 <= i < |keys| => keys[i] + "=" + FormatValue(fields[keys[i]])), LexLeq), ",")
  }

  /** The texts of a list's items. */
  function ItemTexts(items: seq<Value>): (r: seq<string>)
    ensures |r| == |items| && forall i :: 0 <= i < |items| ==> r[i] == FormatValue(items[i])
  {
    seq(|items|, i requires 0 <= i < |items| => FormatValue(items[i]))
  }

  /** The `key=value` parts of an object, in key order before sorting. */
  function FieldParts(fields: map<string, Value>): (r: seq<string>)
    ensures var keys := SortedKeys(fields.Keys);
      |r| == |keys| && forall i :: 0 <= i < |keys| ==> r[i] == keys[i] + "=" + FormatValue(fields[keys[i]])
  {
    var keys := SortedKeys(fields.Keys);
    seq(|keys|, i requires 0 <= i < |keys| => keys[i] + "=" + FormatValue(fields[keys[i]]))
  }

  /** A list of items whose texts hold no comma splits back into those texts. */
  lemma ListTextsSplit(items: seq<Value>)
    requires items != []
    requires forall i :: 0 <= i < |items| ==> ',' !in FormatValue(items[i])
    ensures Split(FormatValue(List(items)), ',') == ItemTexts(items)
  {
    var texts := ItemTexts(items);
    assert FormatValue(List(items)) == Join(texts, ",");
    SplitJoin(texts, ',');
  }

  /** An object shows one `key=value` part per key, in ascending order. */
  lemma ObjectParts(fields: map<string, Value>)
    ensures var parts := Sorting.InsertionSort(FieldParts(fields), LexLeq);
      FormatValue(Obj(fields)) == Join(parts, ",") &&
      Sorting.SortedBy(parts, LexLeq) && |parts| == |fields| &&
      forall k :: k in fields ==> k + "=" + FormatValue(fields[k]) in parts
  {
    var parts := Sorting.InsertionSort(FieldParts(fields), LexLeq);
    LexLeqPreorder();
    Sorting.InsertionSortSorted(FieldParts(fields), LexLeq);
    FieldPartPerKey(fields);
    forall k | k in fields
      ensures k + "=" + FormatValue(fields[k]) in parts
    {
      assert k + "=" + FormatValue(fields[k]) in multiset(FieldParts(fields));
    }
  }

  /** Every key of an object has its `key=value` part. */
  lemma FieldPartPerKey(fields: map<string, Value>)
    ensures forall k :: k in fields ==> k + "=" + FormatValue(fields[k]) in FieldParts(fields)
  {
    var keys := SortedKeys(fields.Keys);
    forall k | k in fields
      ensures k + "=" + FormatValue(fields[k]) in FieldParts(fields)
    {
      var m :| 0 <= m < |keys| && keys[m] == k;
      assert FieldParts(fields)[m] == k + "=" + FormatValue(fields[k]);
    }
  }

  /** `capitalizeFirst`: the first character upper-cased, the rest unchanged. */
  function CapitalizeFirst(s: string): (r: string)
    ensures |r| == |s|
    ensures s != [] ==> r[0] == ToUpperChar(s[0]) && r[1..] == s[1..]
  {
    if s == [] then s else ToUpper(s[..1]) + s[1..]
  }

  /** Capitalising changes nothing but the case of the first character. */
  lemma CapitalizeKeepsLetters(s: string)
    ensures ToLower(CapitalizeFirst(s)) == ToLower(s)
    ensures CapitalizeFirst(CapitalizeFirst(s)) == CapitalizeFirst(s)
  {
    var r := CapitalizeFirst(s);
    if s != [] {
      assert r[0] == ToUpperChar(s[0]) && r[1..] == s[1..];
      forall i | 0 <= i < |s|
        ensures ToLower(r)[i] == ToLower(s)[i]
      {
        if i > 0 {
          assert r[i] == s[i];
        }
      }
      assert ToLower(r) == ToLower(s);
      assert r[..1] == [ToUpperChar(s[0])];
      assert CapitalizeFirst(r) == ToUpper(r[..1]) + r[1..];
    }
  }

  // ---- Colouring values -----------------------------------------------------------------

  const GreenStatuses := {"success", "running", "active", "ready", "healthy", "ok"}
  const RedStatuses := {"error", "failed", "terminated", "unhealthy"}
  const YellowStatuses := {"pending", "waiting", "unknown"}

  /** The colour `colorizeValue` gives a cell, if any: status words under a status
      key first, then versions, then booleans, then names. Keys and words are
      compared without case; the version prefix "v" is case-sensitive. */
  function ValueColor(key: string, value: string): Option<string> {
    var keyLower := ToLower(key);
    var valueLower := ToLower(value);
    if (keyLower == "status" || keyLower == "state") && valueLower in GreenStatuses then Some("ColorGreen")
    else if (keyLower == "status" || keyLower == "state") && valueLower in RedStatuses then Some("ColorRed")
    else if (keyLower == "status" || keyLower == "state") && valueLower in YellowStatuses then Some("ColorYellow")
    else if keyLower == "version" || HasPrefix(value, "v") then Some("ColorPurple")
    else if valueLower == "true" || valueLower == "yes" then Some("ColorGreen")
    else if valueLower == "false" || valueLower == "no" then Some("ColorRed")
    else if keyLower == "name" || keyLower == "id" then Some("ColorBrightWhite")
    else None
  }

  /** `colorizeValue`: the value wrapped in its colour, or unchanged. */
  function ColorizeValue(colorText: (string, string) -> string, key: string, value: string): (r: string)
    ensures ValueColor(key, value).None? ==> r == value
  {
    match ValueColor(key, value)
    case Some(c) => colorText(c, value)
    case None => value
  }

  lemma ToLowerIdempotent(s: string)
    ensures ToLower(ToLower(s)) == ToLower(s)
  {
    assert forall i :: 0 <= i < |s| ==> ToLowerChar(ToLowerChar(s[i])) == ToLowerChar(s[i]);
  }

  /** Only the lower case of a key matters. */
  lemma KeyCaseIgnored(key: string, value: string)
    ensures ValueColor(key, value) == ValueColor(ToLower(key), value)
  {
    ToLowerIdempotent(key);
  }

  /** A status word under a status key is coloured by its meaning, whatever its case,
      even when it would also read as a boolean or a version. */
  lemma StatusWordsWin(key: string, value: string)
    requires ToLower(key) == "status" || ToLower(key) == "state"
    ensures ToLower(value) in GreenStatuses ==> ValueColor(key, value) == Some("ColorGreen")
    ensures ToLower(value) in RedStatuses ==> ValueColor(key, value) == Some("ColorRed")
    ensures ToLower(value) in YellowStatuses ==> ValueColor(key, value) == Some("ColorYellow")
  {
  }

  /** Any value starting with a lower-case "v" counts as a version outside a status
      column, whatever its key: "very" is coloured like "v1.2.0". */
  lemma LeadingVIsVersion(key: string, rest: string)
    requires ToLower(key) != "status" && ToLower(key) != "state"
    ensures ValueColor(key, "v" + rest) == Some("ColorPurple")
  {
    assert ("v" + rest)[..1] == "v";
  }

  // ---- Finding the list -----------------------------------------------------------------

  /** The data keys searched for a list first, in this order. */
  const PriorityKeys: seq<string> := ["items", "releases", "resources", "results", "data", "list"]

  /** The first priority key from index `i` on that holds a list. */
  function FindPriorityList(data: map<string, Value>, i: nat): (r: Option<seq<Value>>)
    decreases |PriorityKeys| - i
  {
    if i >= |PriorityKeys| then None
    else if PriorityKeys[i] in data && data[PriorityKeys[i]].List? then Some(data[PriorityKeys[i]].items)
    else FindPriorityList(data, i + 1)
  }

  /** The keys that hold a list. */
  function ListKeys(data: map<string, Value>): set<string> {
    set k | k in data && data[k].List?
  }

  /** `findListInData`: the list under the first priority key that holds one;
      otherwise some list elsewhere in the data (the source takes the first in map
      order, which is unspecified; the model takes the least key); otherwise none. */
  function FindList(data: map<string, Value>): Option<seq<Value>> {
    var p := FindPriorityList(data, 0);
    if p.Some? then p
    else if ListKeys(data) == {} then None
    else Some(data[SortedKeys(ListKeys(data))[0]].items)
  }

  /** The list under the first priority key holding one is the one shown, whatever
      lists the other keys hold. */
  lemma {:induction false} FirstPriorityListWins(data: map<string, Value>, i: nat, j: nat)
    requires i <= j < |PriorityKeys|
    requires PriorityKeys[j] in data && data[PriorityKeys[j]].List?
    requires forall m :: i <= m < j ==> !(PriorityKeys[m] in data && data[PriorityKeys[m]].List?)
    ensures FindPriorityList(data, i) == Some(data[PriorityKeys[j]].items)
    decreases j - i
  {
    if i < j {
      FirstPriorityListWins(data, i + 1, j);
    }
  }

  /** The list found under a priority key, in priority order. */
  lemma PriorityOrder(data: map<string, Value>, j: nat)
    requires j < |PriorityKeys|
    requires PriorityKeys[j] in data && data[PriorityKeys[j]].List?
    requires forall m :: 0 <= m < j ==> !(PriorityKeys[m] in data && data[PriorityKeys[m]].List?)
    ensures FindList(data) == Some(data[PriorityKeys[j]].items)
  {
    FirstPriorityListWins(data, 0, j);
  }

  /** The priority search finds only lists that are in the data. */
  lemma {:induction false} PriorityFound(data: map<string, Value>, i: nat)
    ensures FindPriorityList(data, i).Some? ==>
      exists k :: k in data && data[k] == List(FindPriorityList(data, i).value)
    decreases |PriorityKeys| - i
  {
    if i < |PriorityKeys| && !(PriorityKeys[i] in data && data[PriorityKeys[i]].List?) {
      PriorityFound(data, i + 1);
    }
  }

  /** No list is found exactly when no key holds one; a list found is one of the
      data's values. */
  lemma FindListIff(data: map<string, Value>)
    ensures FindList(data).None? <==> forall k :: k in data ==> !data[k].List?
    ensures FindList(data).Some? ==> exists k :: k in data && data[k] == List(FindList(data).value)
  {
    PriorityFound(data, 0);
    if ListKeys(data) != {} {
      var k :| k in ListKeys(data);
      assert k in data && data[k].List?;
      var least := SortedKeys(ListKeys(data))[0];
      assert least in ListKeys(data);
    } else {
      forall k | k in data
        ensures !data[k].List?
      {
        assert data[k].List? ==> k in ListKeys(data);
      }
    }
  }

  // ---- Table data -----------------------------------------------------------------------

  /** The keys of an item that is an object; other items have none. */
  function ItemKeys(item: Value): set<string> {
    if item.Obj? then item.fields.Keys else {}
  }

  /** Every key of every object item. */
  function HeaderSet(items: seq<Value>): set<string> {
    if items == [] then {} else HeaderSet(items[..|items| - 1]) + ItemKeys(items[|items| - 1])
  }

  /** A header is a key of some object item. */
  lemma {:induction false} HeaderSetIff(items: seq<Value>, k: string)
    ensures k in HeaderSet(items) <==> exists i :: 0 <= i < |items| && k in ItemKeys(items[i])
  {
    if items != [] {
      var init := items[..|items| - 1];
      HeaderSetIff(init, k);
      if k in HeaderSet(init) {
        var i :| 0 <= i < |init| && k in ItemKeys(init[i]);
        assert items[i] == init[i];
      }
      if exists i :: 0 <= i < |items| && k in ItemKeys(items[i]) {
        var i :| 0 <= i < |items| && k in ItemKeys(items[i]);
        if i < |items| - 1 {
          assert init[i] == items[i];
        }
      }
    }
  }

  /** The rank of a common column; the others have none. */
  const Priority: map<string, int> := map[
    "name" := 1, "NAME" := 1,
    "id" := 2, "ID" := 2,
    "version" := 3, "VERSION" := 3,
    "status" := 4, "STATUS" := 4,
    "type" := 5, "TYPE" := 5,
    "created" := 6, "CREATED" := 6,
    "age" := 7, "AGE" := 7]

  /** `a` may precede `b` among the headers: ranked columns by rank before all
      others, the others in string order. This is "not (b before a)" for the
      comparison `prioritizeHeaders` sorts by. */
  predicate HeaderLeq(a: string, b: string) {
    if a in Priority && b in Priority then Priority[a] <= Priority[b]
    else if a in Priority then true
    else if b in Priority then false
    else LexLeq(a, b)
  }

  lemma HeaderLeqPreorder()
    ensures Sorting.TotalPreorder(HeaderLeq)
  {
    forall a, b
      ensures HeaderLeq(a, b) || HeaderLeq(b, a)
    {
      LexLeqTotal(a, b);
    }
    forall a, b, c | HeaderLeq(a, b) && HeaderLeq(b, c)
      ensures HeaderLeq(a, c)
    {
      if a !in Priority && b !in Priority && c !in Priority {
        LexLeqTransitive(a, b, c);
      }
    }
  }

  /** `prioritizeHeaders`: the headers sorted by `HeaderLeq`. */
  function PrioritizeHeaders(headers: seq<string>): (r: seq<string>)
    ensures multiset(r) == multiset(headers)
    ensures Sorting.SortedBy(r, HeaderLeq)
  {
    HeaderLeqPreorder();
    Sorting.InsertionSortSorted(headers, HeaderLeq);
    Sorting.InsertionSort(headers, HeaderLeq)
  }

  /** Ranked columns come first, in rank order; the other columns follow in string
      order. */
  lemma RankedColumnsFirst(headers: seq<string>, i: nat, j: nat)
    requires i < j < |PrioritizeHeaders(headers)|
    ensures var r := PrioritizeHeaders(headers);
      (r[j] in Priority ==> r[i] in Priority && Priority[r[i]] <= Priority[r[j]]) &&
      (r[i] !in Priority && r[j] !in Priority ==> LexLeq(r[i], r[j]))
  {
    var r := PrioritizeHeaders(headers);
    assert HeaderLeq(r[i], r[j]);
  }

  /** The columns of a list's table. */
  function Headers(items: seq<Value>): seq<string> {
    PrioritizeHeaders(SortedKeys(HeaderSet(items)))
  }

  /** What an object lacks shows as a missing value. */
  function Lookup(fields: map<string, Value>, h: string): Value {
    if h in fields then fields[h] else Null
  }

  /** The cells of an object under some headers. */
  function RowOf(fields: map<string, Value>, hs: seq<string>): map<string, string> {
    if hs == [] then map[]
    else RowOf(fields, hs[..|hs| - 1])[hs[|hs| - 1] := FormatValue(Lookup(fields, hs[|hs| - 1]))]
  }

  /** The row of an item: its cells if it is an object, no cells otherwise. */
  function RowFor(item: Value, headers: seq<string>): map<string, string> {
    if item.Obj? then RowOf(item.fields, headers) else map[]
  }

  /** The rows of some items, one each, in order. */
  function RowsFor(items: seq<Value>, headers: seq<string>): seq<map<string, string>> {
    seq(|items|, i requires 0 <= i < |items| => RowFor(items[i], headers))
  }

  /** A row has a cell under every header and no other, each the formatted value
      under that key, "<none>" when the object lacks it. */
  lemma {:induction false} RowCells(fields: map<string, Value>, hs: seq<string>)
    ensures forall h :: h in RowOf(fields, hs) <==> h in hs
    ensures forall h :: h in hs ==> RowOf(fields, hs)[h] == FormatValue(Lookup(fields, h))
  {
    if hs != [] {
      var init := hs[..|hs| - 1];
      RowCells(fields, init);
      assert hs == init + [hs[|hs| - 1]];
    }
  }

  /** A column an object lacks shows "<none>" in its row. */
  lemma MissingKeyShowsNone(item: Value, headers: seq<string>, h: string)
    requires item.Obj? && h in headers && h !in item.fields
    ensures h in RowFor(item, headers) && RowFor(item, headers)[h] == "<none>"
  {
    RowCells(item.fields, headers);
  }

  /** `extractTableData`: the headers of all object items, sorted and prioritised,
      and one row per item. */
  /** The loop gathering every key of the object items. */
  method CollectHeaderSet(items: seq<Value>) returns (headerSet: set<string>)
    ensures headerSet == HeaderSet(items)
  {
    headerSet := {};
    var i := 0;
    while i < |items|
      invariant 0 <= i <= |items|
      invariant headerSet == HeaderSet(items[..i])
    {
      assert items[..i + 1][..i] == items[..i];
      if items[i].Obj? {
        headerSet := headerSet + items[i].fields.Keys;
      }
      i := i + 1;
    }
    assert items[..i] == items;
  }

  /** The loop building one row per item. */
  method FillRows(items: seq<Value>, headers: seq<string>) returns (rows: seq<map<string, string>>)
    ensures rows == RowsFor(items, headers)
  {
    rows := [];
    var i := 0;
    while i < |items|
      invariant 0 <= i <= |items|
      invariant |rows| == i && forall k :: 0 <= k < i ==> rows[k] == RowFor(items[k], headers)
    {
      var row := FillRow(items[i], headers);
      rows := rows + [row];
      i := i + 1;
    }
  }

  method ExtractTableData(items: seq<Value>) returns (headers: seq<string>, rows: seq<map<string, string>>)
    ensures headers == Headers(items)
    ensures rows == RowsFor(items, headers)
  {
    var headerSet := CollectHeaderSet(items);
    headers := PrioritizeHeaders(SortedKeys(headerSet));
    rows := FillRows(items, headers);
  }


  /** The second pass of `extractTableData` for one item. */
  method FillRow(item: Value, headers: seq<string>) returns (row: map<string, string>)
    ensures row == RowFor(item, headers)
  {
    row := map[];
    if item.Obj? {
      var fields := item.fields;
      var j := 0;
      while j < |headers|
        invariant 0 <= j <= |headers|
        invariant row == RowOf(fields, headers[..j])
      {
        assert headers[..j + 1][..j] == headers[..j];
        row := row[headers[j] := FormatValue(if headers[j] in fields then fields[headers[j]] else Null)];
        j := j + 1;
      }
      assert headers[..j] == headers;
    }
  }

  // ---- Column widths --------------------------------------------------------------------

  /** The cell of a row under a header, "" when the row has none. */
  function Cell(row: map<string, string>, h: string): string {
    if h in row then row[h] else ""
  }

  /** The widest of the header's upper-case text and its cells in some rows. */
  function MaxWidth(h: string, rows: seq<map<string, string>>): nat {
    if rows == [] then |ToUpper(h)|
    else
      var w := MaxWidth(h, rows[..|rows| - 1]);
      var c := |Cell(rows[|rows| - 1], h)|;
      if c > w then c else w
  }

  /** The width of a column: its widest text plus two spaces of padding. */
  function ColumnWidth(h: string, rows: seq<map<string, string>>): nat {
    MaxWidth(h, rows) + 2
  }

  /** The width of every header's column. */
  function Widths(headers: seq<string>, rows: seq<map<string, string>>): map<string, int> {
    map h | h in headers :: ColumnWidth(h, rows)
  }

  /** A column is as wide as its header and every cell plus two, and no wider than
      the widest of them plus two. */
  lemma {:induction false} WidthIsTightest(h: string, rows: seq<map<string, string>>)
    ensures ColumnWidth(h, rows) >= |h| + 2
    ensures forall i :: 0 <= i < |rows| ==> ColumnWidth(h, rows) >= |Cell(rows[i], h)| + 2
    ensures ColumnWidth(h, rows) == |h| + 2 || exists i :: 0 <= i < |rows| && ColumnWidth(h, rows) == |Cell(rows[i], h)| + 2
  {
    if rows != [] {
      var init := rows[..|rows| - 1];
      WidthIsTightest(h, init);
      forall i | 0 <= i < |init|
        ensures rows[i] == init[i]
      {
      }
      if ColumnWidth(h, init) != ColumnWidth(h, rows) {
        assert ColumnWidth(h, rows) == |Cell(rows[|rows| - 1], h)| + 2;
      } else if ColumnWidth(h, rows) != |h| + 2 {
        var i :| 0 <= i < |init| && ColumnWidth(h, init) == |Cell(init[i], h)| + 2;
        assert rows[i] == init[i];
      }
    }
  }

  /** `calculateColumnWidths`: start from the headers' lengths, widen to every cell,
      then pad every column by two. */
  /** Every header's column as wide as its upper-case text. */
  method HeaderWidths(headers: seq<string>) returns (widths: map<string, int>)
    ensures forall h :: h in widths <==> h in headers
    ensures forall h :: h in widths ==> widths[h] == MaxWidth(h, [])
  {
    widths := map[];
    var j := 0;
    while j < |headers|
      invariant 0 <= j <= |headers|
      invariant forall h :: h in widths <==> h in headers[..j]
      invariant forall h :: h in widths ==> widths[h] == MaxWidth(h, [])
    {
      assert headers[..j + 1] == headers[..j] + [headers[j]];
      widths := widths[headers[j] := |ToUpper(headers[j])|];
      j := j + 1;
    }
    assert headers[..j] == headers;
  }

  /** One more row widens a column to that row's cell when it is wider. */
  lemma MaxWidthSnoc(rows: seq<map<string, string>>, i: nat, h: string)
    requires i < |rows|
    ensures MaxWidth(h, rows[..i + 1]) ==
      if |Cell(rows[i], h)| > MaxWidth(h, rows[..i]) then |Cell(rows[i], h)| else MaxWidth(h, rows[..i])
  {
    assert rows[..i + 1][..i] == rows[..i];
  }

  /** The inner loop: widening each column to fit the next row's cell. */
  method WidenForRow(headers: seq<string>, row: map<string, string>, widths0: map<string, int>)
    returns (widths: map<string, int>)
    requires forall h :: h in headers ==> h in widths0
    ensures widths.Keys == widths0.Keys
    ensures forall h :: h in widths && h in headers ==>
      widths[h] == if |Cell(row, h)| > widths0[h] then |Cell(row, h)| else widths0[h]
  {
    widths := widths0;
    ghost var seen: set<string> := {};
    var j := 0;
    while j < |headers|
      invariant 0 <= j <= |headers|
      invariant widths.Keys == widths0.Keys
      invariant forall k :: 0 <= k < j ==> headers[k] in seen
      invariant forall h :: h in widths ==>
        widths[h] == if h in seen && |Cell(row, h)| > widths0[h] then |Cell(row, h)| else widths0[h]
    {
      var h := headers[j];
      var cell := if h in row then row[h] else "";
      if |cell| > widths[h] {
        widths := widths[h := |cell|];
      }
      seen := seen + {h};
      j := j + 1;
    }
  }

  method CalculateColumnWidths(headers: seq<string>, rows: seq<map<string, string>>) returns (widths: map<string, int>)
    ensures forall h :: h in widths <==> h in headers
    ensures forall h :: h in widths ==> widths[h] == ColumnWidth(h, rows)
    ensures widths == Widths(headers, rows)
  {
    widths := HeaderWidths(headers);
    assert rows[..0] == [];
    var i := 0;
    while i < |rows|
      invariant 0 <= i <= |rows|
      invariant forall h :: h in widths <==> h in headers
      invariant forall h :: h in widths ==> widths[h] == MaxWidth(h, rows[..i])
    {
      var next := WidenForRow(headers, rows[i], widths);
      forall h | h in next
        ensures next[h] == MaxWidth(h, rows[..i + 1])
      {
        MaxWidthSnoc(rows, i, h);
      }
      widths := next;
      i := i + 1;
    }
    assert rows[..i] == rows;
    widths := AddPadding(widths);
    assert widths.Keys == Widths(headers, rows).Keys;
  }

  /** The last loop: two spaces of padding on every column. */
  method AddPadding(unpadded: map<string, int>) returns (widths: map<string, int>)
    ensures widths.Keys == unpadded.Keys
    ensures forall h :: h in widths ==> widths[h] == unpadded[h] + 2
  {
    widths := unpadded;
    var pending := widths.Keys;
    while pending != {}
      invariant pending <= widths.Keys && widths.Keys == unpadded.Keys
      invariant forall h :: h in widths ==> widths[h] == unpadded[h] + (if h in pending then 0 else 2)
      decreases pending
    {
      var k :| k in pending;
      widths := widths[k := widths[k] + 2];
      pending := pending - {k};
    }
  }


  // ---- What is shown --------------------------------------------------------------------

  /** One key/value line: the padded, capitalised key, the formatted value and its
      colour. */
  datatype KeyValueRow = KeyValueRow(caption: string, value: string, color: Option<string>)

  datatype Screen =
    | Json(resp: Response)                                 // the response, JSON-encoded
    | ErrorReport(code: string, message: string, details: map<string, Value>)
    | NilErrorPanic                                        // status "error" without an error object
    | NoResources                                          // an empty list
    | PlainItems(items: seq<Value>)                        // a list without object items, one `%v` line each
    | Table(headers: seq<string>, widths: map<string, int>, rows: seq<map<string, string>>)
    | NoData                                               // no data at all
    | KeyValues(lines: seq<KeyValueRow>)

  /** `%-*s`: the text padded with spaces on the right to `width`. */
  function PadRight(s: string, width: int): (r: string)
    ensures |r| == if |s| < width then width else |s|
    ensures r[..|s|] == s
  {
    s + Spaces(if |s| < width then width - |s| else 0)
  }

  /** `n` spaces. */
  function Spaces(n: nat): (r: string)
    ensures |r| == n
  {
    if n == 0 then "" else Spaces(n - 1) + " "
  }

  /** The length of the longest key. */
  function MaxLength(keys: seq<string>): (n: nat)
    ensures forall i :: 0 <= i < |keys| ==> |keys[i]| <= n
  {
    if keys == [] then 0
    else
      var m := MaxLength(keys[..|keys| - 1]);
      assert forall i :: 0 <= i < |keys| - 1 ==> keys[i] == keys[..|keys| - 1][i];
      if |keys[|keys| - 1]| > m then |keys[|keys| - 1]| else m
  }

  function KeyValueLine(data: map<string, Value>, k: string, width: nat): KeyValueRow
    requires k in data
  {
    var value := FormatValue(data[k]);
    KeyValueRow(PadRight(CapitalizeFirst(k), width), value, ValueColor(k, value))
  }

  /** `renderKeyValue`: "No data." for empty data, otherwise one line per key in
      ascending key order, every caption padded to the longest key. */
  function KeyValueScreen(data: map<string, Value>): Screen {
    if |data| == 0 then NoData
    else
      var keys := SortedKeys(data.Keys);
      KeyValues(KeyValueLinesOf(data, keys, MaxLength(keys)))
  }

  /** One line per key, in the order of the keys. */
  function KeyValueLinesOf(data: map<string, Value>, keys: seq<string>, width: nat): seq<KeyValueRow>
    requires forall k :: 0 <= k < |keys| ==> keys[k] in data
  {
    seq(|keys|, i requires 0 <= i < |keys| => KeyValueLine(data, keys[i], width))
  }

  /** `renderList`: "No resources found." for an empty list, the items one per line
      when none of them is an object with keys, otherwise the table. */
  function ListScreen(items: seq<Value>): Screen {
    if |items| == 0 then NoResources
    else
      var headers := Headers(items);
      if |headers| == 0 then PlainItems(items)
      else
        var rows := RowsFor(items, headers);
        Table(headers, Widths(headers, rows), rows)
  }

  /** `renderTable`: an error response is reported as such (a missing error object
      is a nil dereference); otherwise a list is a table and anything else key/value
      lines. Wide output is the same. */
  function TableScreen(resp: Response): Screen {
    if resp.status == "error" then
      if resp.error.None? then NilErrorPanic
      else ErrorReport(resp.error.value.code, resp.error.value.message, resp.error.value.details)
    else
      match FindList(resp.data)
      case Some(items) => ListScreen(items)
      case None => KeyValueScreen(resp.data)
  }

  /** `RenderTo`: JSON for "json", the table view for every other format. */
  function RenderToSpec(resp: Response, format: string): Screen {
    if format == "json" then Json(resp) else TableScreen(resp)
  }

  /** The loop measuring the longest key. */
  method LongestKey(keys: seq<string>) returns (width: nat)
    ensures width == MaxLength(keys)
  {
    width := 0;
    var i := 0;
    while i < |keys|
      invariant 0 <= i <= |keys|
      invariant width == MaxLength(keys[..i])
    {
      assert keys[..i + 1][..i] == keys[..i];
      if |keys[i]| > width {
        width := |keys[i]|;
      }
      i := i + 1;
    }
    assert keys[..i] == keys;
  }

  /** The loop writing one line per key. */
  method KeyValueRows(data: map<string, Value>, keys: seq<string>, width: nat) returns (lines: seq<KeyValueRow>)
    requires forall k :: 0 <= k < |keys| ==> keys[k] in data
    ensures lines == KeyValueLinesOf(data, keys, width)
  {
    ghost var spec := KeyValueLinesOf(data, keys, width);
    lines := [];
    var i := 0;
    while i < |keys|
      invariant 0 <= i <= |keys|
      invariant lines == spec[..i]
    {
      assert spec[..i + 1] == spec[..i] + [spec[i]];
      lines := lines + [KeyValueLine(data, keys[i], width)];
      i := i + 1;
    }
    assert spec[..i] == spec;
  }

  method RenderKeyValue(data: map<string, Value>) returns (s: Screen)
    ensures s == KeyValueScreen(data)
  {
    if |data| == 0 {
      return NoData;
    }
    var keys := SortedKeys(data.Keys);
    var width := LongestKey(keys);
    var lines := KeyValueRows(data, keys, width);
    s := KeyValues(lines);
  }

  method RenderList(items: seq<Value>) returns (s: Screen)
    ensures s == ListScreen(items)
  {
    if |items| == 0 {
      return NoResources;
    }
    var headers, rows := ExtractTableData(items);
    if |headers| == 0 {
      return PlainItems(items);
    }
    var widths := CalculateColumnWidths(headers, rows);
    s := Table(headers, widths, rows);
  }

  method RenderTable(resp: Response) returns (s: Screen)
    ensures s == TableScreen(resp)
  {
    if resp.status == "error" {
      if resp.error.None? {
        return NilErrorPanic;
      }
      return ErrorReport(resp.error.value.code, resp.error.value.message, resp.error.value.details);
    }
    var list := FindList(resp.data);
    if list.Some? {
      s := RenderList(list.value);
    } else {
      s := RenderKeyValue(resp.data);
    }
  }

  method RenderTo(resp: Response, format: string) returns (s: Screen)
    ensures s == RenderToSpec(resp, format)
  {
    if format == "json" {
      return Json(resp);
    }
    s := RenderTable(resp);
  }

  // ---- Properties of what is shown ------------------------------------------------------

  /** An error response is reported as an error even when its data holds a list. */
  lemma ErrorsBeforeData(resp: Response, format: string)
    requires resp.status == "error" && resp.error.Some? && format != "json"
    ensures RenderToSpec(resp, format) ==
      ErrorReport(resp.error.value.code, resp.error.value.message, resp.error.value.details)
  {
  }

  /** The plugins' own error responses always carry an error object, so they are
      reported and never dereference nil. */
  lemma PluginErrorsReported(code: string, message: string, details: map<string, Value>)
    ensures TableScreen(PluginErrors.NewErrorResponseWithDetails(code, message, details)) ==
      ErrorReport(code, message, details)
  {
  }

  /** The key/value lines follow the keys in ascending order, and every caption has
      the width of the longest key. */
  lemma KeyValueLines(data: map<string, Value>)
    requires |data| > 0
    ensures var s := KeyValueScreen(data);
      var keys := SortedKeys(data.Keys);
      s.KeyValues? && |s.lines| == |data| &&
      forall i :: 0 <= i < |keys| ==>
        s.lines[i].value == FormatValue(data[keys[i]]) &&
        HasPrefix(s.lines[i].caption, CapitalizeFirst(keys[i])) &&
        |s.lines[i].caption| == MaxLength(keys)
  {
    var keys := SortedKeys(data.Keys);
    assert forall k :: 0 <= k < |keys| ==> keys[k] in data;
    LinesOfKeys(data, keys, MaxLength(keys));
  }

  /** Each key's line shows its formatted value under its caption padded to the width. */
  lemma LinesOfKeys(data: map<string, Value>, keys: seq<string>, width: nat)
    requires forall k :: 0 <= k < |keys| ==> keys[k] in data && |keys[k]| <= width
    ensures var lines := KeyValueLinesOf(data, keys, width);
      |lines| == |keys| &&
      forall i :: 0 <= i < |keys| ==>
        lines[i].value == FormatValue(data[keys[i]]) &&
        HasPrefix(lines[i].caption, CapitalizeFirst(keys[i])) &&
        |lines[i].caption| == width
  {
    forall i | 0 <= i < |keys|
      ensures HasPrefix(KeyValueLine(data, keys[i], width).caption, CapitalizeFirst(keys[i]))
      ensures |KeyValueLine(data, keys[i], width).caption| == width
    {
      CaptionOfKey(keys[i], width);
    }
  }

  /** A key's caption starts with the capitalised key and is padded to the width. */
  lemma CaptionOfKey(k: string, width: nat)
    requires |k| <= width
    ensures HasPrefix(PadRight(CapitalizeFirst(k), width), CapitalizeFirst(k))
    ensures |PadRight(CapitalizeFirst(k), width)| == width
  {
    var c := CapitalizeFirst(k);
    assert PadRight(c, width)[..|c|] == c;
  }

  /** A table has one row per item; every column is at least as wide as its header
      and each of its cells, plus two. */
  lemma TableShape(items: seq<Value>)
    requires ListScreen(items).Table?
    ensures var t := ListScreen(items);
      |t.rows| == |items| &&
      forall h :: h in t.headers ==>
        h in t.widths && t.widths[h] >= |h| + 2 &&
        forall i :: 0 <= i < |t.rows| ==> t.widths[h] >= |Cell(t.rows[i], h)| + 2
  {
    var headers := Headers(items);
    var rows := RowsFor(items, headers);
    assert ListScreen(items) == Table(headers, Widths(headers, rows), rows);
    WidthsBound(headers, rows);
  }

  /** Every column fits its header and its cells with two spaces to spare. */
  lemma WidthsBound(headers: seq<string>, rows: seq<map<string, string>>)
    ensures var widths := Widths(headers, rows);
      forall h :: h in headers ==>
        h in widths && widths[h] >= |h| + 2 &&
        forall i :: 0 <= i < |rows| ==> widths[h] >= |Cell(rows[i], h)| + 2
  {
    forall h | h in headers
      ensures ColumnWidth(h, rows) >= |h| + 2
      ensures forall i :: 0 <= i < |rows| ==> ColumnWidth(h, rows) >= |Cell(rows[i], h)| + 2
    {
      WidthIsTightest(h, rows);
    }
  }

  /** The columns are exactly the keys of the object items, each once. */
  lemma ColumnsAreItemKeys(items: seq<Value>, k: string)
    ensures k in Headers(items) <==> exists i :: 0 <= i < |items| && k in ItemKeys(items[i])
  {
    var sorted := SortedKeys(HeaderSet(items));
    assert k in Headers(items) <==> k in multiset(Headers(items));
    assert k in sorted <==> k in multiset(sorted);
    HeaderSetIff(items, k);
  }
}
