/** The item classification report: the WHERE clause and parameter list built
    from the user's filters, and the summary block computed over the rows the
    query returns (totals, a count per classification and a count per priority
    bucket). */
module ClassificationReport {
  import opened Numeric

  // ---------------------------------------------------------------------------
  // Filters, WHERE clause and parameters
  // ---------------------------------------------------------------------------

  /** A filter value as the report receives it: text, or a number. */
  datatype FilterValue = Text(s: string) | Number(x: real)

  /** Python truthiness of a filter value: non-empty text, or a non-zero number. */
  predicate Truthy(v: FilterValue)
  {
    match v
    case Text(s) => |s| > 0
    case Number(x) => x != 0.0
  }

  /** `filters.get(key)` is truthy: the key is present and its value is truthy. */
  predicate Present(o: Option<FilterValue>)
  {
    o.Some? && Truthy(o.value)
  }

  datatype Filters = Filters(
    classificationType: Option<FilterValue>,
    abcCategory: Option<FilterValue>,
    priorityMin: Option<FilterValue>,
    priorityMax: Option<FilterValue>,
    dosMin: Option<FilterValue>,
    dosMax: Option<FilterValue>,
    itemCode: Option<string>)

  /** A bound query parameter. */
  datatype Param = RawParam(v: FilterValue) | IntParam(i: int) | RealParam(x: real) | PatternParam(s: string)

  /** Frappe's `cint` and `flt`: a number converts directly (`cint` truncates); text is
      parsed by the supplied parser. */
  function Cint(v: FilterValue, parseInt: string -> int): int
  {
    match v
    case Number(x) => Trunc(x)
    case Text(s) => parseInt(s)
  }

  function Flt(v: FilterValue, parseReal: string -> real): real
  {
    match v
    case Number(x) => x
    case Text(s) => parseReal(s)
  }

  /** The number of `%s` placeholders in a string. */
  function Placeholders(s: string): nat
  {
    if |s| < 2 then 0
    else (if s[0] == '%' && s[1] == 's' then 1 else 0) + Placeholders(s[1..])
  }

  /** Appending text that does not start with `s` adds its own placeholders and
      creates none across the seam. */
  lemma {:induction false} PlaceholdersAppend(a: string, b: string)
    requires b == [] || b[0] != 's'
    ensures Placeholders(a + b) == Placeholders(a) + Placeholders(b)
  {
    if |a| == 0 {
      assert a + b == b;
    } else if |a| == 1 {
      if b != [] {
        assert (a + b)[1..] == b;
      }
    } else {
      assert (a + b)[1..] == a[1..] + b;
      PlaceholdersAppend(a[1..], b);
    }
  }

  predicate NoPercent(p: string)
  {
    forall i :: 0 <= i < |p| ==> p[i] != '%'
  }

  /** A condition is a `%`-free prefix followed by one placeholder. */
  lemma {:induction false} ConditionHasOnePlaceholder(p: string)
    requires NoPercent(p)
    ensures Placeholders(p + "%s") == 1
  {
    if p == [] {
      assert p + "%s" == "%s";
      assert Placeholders("%s"[1..]) == 0;
    } else {
      assert (p + "%s")[1..] == p[1..] + "%s";
      ConditionHasOnePlaceholder(p[1..]);
    }
  }

  /** The filterable columns, in the order their conditions are appended. */
  datatype Column = ClassificationColumn | AbcColumn | PriorityMinColumn | PriorityMaxColumn
                  | DosMinColumn | DosMaxColumn | ItemCodeColumn

  /** The table column a filter constrains. */
  function ColumnName(c: Column): (n: string)
    ensures NoPercent(n)
  {
    match c
    case ClassificationColumn => "classification_type"
    case AbcColumn => "abc_category"
    case PriorityMinColumn | PriorityMaxColumn => "action_priority"
    case DosMinColumn | DosMaxColumn => "days_of_stock"
    case ItemCodeColumn => "item_code"
  }

  /** The comparison a filter applies, with the spaces around it. */
  function Operator(c: Column): (o: string)
    ensures NoPercent(o)
  {
    match c
    case ClassificationColumn | AbcColumn => " = "
    case PriorityMinColumn | DosMinColumn => " >= "
    case PriorityMaxColumn | DosMaxColumn => " <= "
    case ItemCodeColumn => " LIKE "
  }

  lemma NoPercentAppend(a: string, b: string)
    requires NoPercent(a) && NoPercent(b)
    ensures NoPercent(a + b)
  {
    forall i | 0 <= i < |a + b| ensures (a + b)[i] != '%' {
      if i >= |a| {
        assert (a + b)[i] == b[i - |a|];
      }
    }
  }

  /** The condition text for a column, up to its placeholder, such as
      ` AND ic.abc_category = `. */
  function Prefix(c: Column): (p: string)
    ensures NoPercent(p) && |p| > 0 && p[0] == ' '
  {
    var lead := " AND ic.";
    NoPercentAppend(lead, ColumnName(c));
    NoPercentAppend(lead + ColumnName(c), Operator(c));
    lead + ColumnName(c) + Operator(c)
  }

  predicate CodePresent(o: Option<string>)
  {
    o.Some? && |o.value| > 0
  }

  /** One filter of the report: whether it is set, the column it constrains and the
      parameter it binds. */
  datatype Slot = Slot(present: bool, column: Column, param: Param)

  const NoValue := FilterValue.Text("")

  /** The seven filters in the order the clause is built: the two categories as raw
      text, the priorities through `cint`, the days of stock through `flt`, and the
      item code as a `%code%` pattern. */
  function Slots(f: Filters, parseInt: string -> int, parseReal: string -> real): (s: seq<Slot>)
    ensures |s| == 7
  {
    [ Slot(Present(f.classificationType), ClassificationColumn, RawParam(f.classificationType.GetOr(NoValue))),
      Slot(Present(f.abcCategory), AbcColumn, RawParam(f.abcCategory.GetOr(NoValue))),
      Slot(Present(f.priorityMin), PriorityMinColumn, IntParam(Cint(f.priorityMin.GetOr(NoValue), parseInt))),
      Slot(Present(f.priorityMax), PriorityMaxColumn, IntParam(Cint(f.priorityMax.GetOr(NoValue), parseInt))),
      Slot(Present(f.dosMin), DosMinColumn, RealParam(Flt(f.dosMin.GetOr(NoValue), parseReal))),
      Slot(Present(f.dosMax), DosMaxColumn, RealParam(Flt(f.dosMax.GetOr(NoValue), parseReal))),
      Slot(CodePresent(f.itemCode), ItemCodeColumn, PatternParam("%" + f.itemCode.GetOr("") + "%")) ]
  }

  /** The text one filter contributes: its condition and placeholder when set. */
  function Condition(slot: Slot): string
  {
    if slot.present then Prefix(slot.column) + "%s" else ""
  }

  /** The conditions of a run of filters, in order. */
  function Conditions(s: seq<Slot>): string
  {
    if s == [] then "" else Conditions(s[..|s| - 1]) + Condition(s[|s| - 1])
  }

  /** The parameters of a run of filters, one per filter that is set, in order. */
  function Params(s: seq<Slot>): seq<Param>
  {
    if s == [] then [] else Params(s[..|s| - 1]) + (if s[|s| - 1].present then [s[|s| - 1].param] else [])
  }

  /** How many of a run of filters are set. */
  function SetCount(s: seq<Slot>): nat
  {
    if s == [] then 0 else SetCount(s[..|s| - 1]) + (if s[|s| - 1].present then 1 else 0)
  }

  /** The WHERE clause a set of filters produces. */
  function WhereClause(f: Filters, parseInt: string -> int, parseReal: string -> real): string
  {
    "1=1" + Conditions(Slots(f, parseInt, parseReal))
  }

  /** The parameters a set of filters produces. */
  function FilterParams(f: Filters, parseInt: string -> int, parseReal: string -> real): seq<Param>
  {
    Params(Slots(f, parseInt, parseReal))
  }

  /** Each filter that is set adds one placeholder and one parameter, and the
      conditions text starts with a space. */
  lemma {:induction false} ConditionsMatchParams(s: seq<Slot>)
    ensures Placeholders(Conditions(s)) == |Params(s)| == SetCount(s)
    ensures Conditions(s) == [] || Conditions(s)[0] == ' '
  {
    if s != [] {
      var init, last := s[..|s| - 1], s[|s| - 1];
      ConditionsMatchParams(init);
      var c, d := Conditions(init), Condition(last);
      if last.present {
        ConditionHasOnePlaceholder(Prefix(last.column));
      }
      PlaceholdersAppend(c, d);
      if c != [] {
        assert (c + d)[0] == c[0];
      } else {
        assert c + d == d;
      }
    }
  }

  /** The query binds exactly as many parameters as its clause has placeholders:
      one per filter that is set. */
  lemma PlaceholdersMatchParams(f: Filters, parseInt: string -> int, parseReal: string -> real)
    ensures Placeholders(WhereClause(f, parseInt, parseReal)) == |FilterParams(f, parseInt, parseReal)|
                                                             == SetCount(Slots(f, parseInt, parseReal))
  {
    var s := Slots(f, parseInt, parseReal);
    ConditionsMatchParams(s);
    PlaceholdersAppend("1=1", Conditions(s));
    assert Placeholders("1=1") == 0 by {
      assert "1=1"[1..][1..] == "1";
    }
  }

  lemma AppendAssoc(a: string, b: string, c: string)
    ensures a + (b + c) == a + b + c
  {
  }

  /** `where_clause += condition; params.append(value)` for each filter that is set,
      starting from `1=1`. */
  method AppendConditions(slots: seq<Slot>) returns (where: string, params: seq<Param>)
    ensures where == "1=1" + Conditions(slots)
    ensures params == Params(slots)
  {
    where, params := "1=1", [];
    for i := 0 to |slots|
      invariant where == "1=1" + Conditions(slots[..i])
      invariant params == Params(slots[..i])
    {
      assert slots[..i + 1][..i] == slots[..i];
      ghost var done := Conditions(slots[..i]);
      if slots[i].present {
        where := where + Prefix(slots[i].column) + "%s";
        params := params + [slots[i].param];
        AppendAssoc("1=1", done, Prefix(slots[i].column) + "%s");
      } else {
        assert done + Condition(slots[i]) == done;
      }
    }
    assert slots[..|slots|] == slots;
  }

  /** The WHERE clause and parameter list for a set of filters; running the query
      itself is not modelled. */
  method GetData(f: Filters, parseInt: string -> int, parseReal: string -> real)
    returns (where: string, params: seq<Param>)
    ensures where == WhereClause(f, parseInt, parseReal)
    ensures params == FilterParams(f, parseInt, parseReal)
    ensures Placeholders(where) == |params|
  {
    where, params := AppendConditions(Slots(f, parseInt, parseReal));
    PlaceholdersMatchParams(f, parseInt, parseReal);
  }

  // ---------------------------------------------------------------------------
  // Counting dictionaries
  // ---------------------------------------------------------------------------

  /** A counting dict `{key: count}` in insertion order. */
  datatype Entry<K> = Entry(key: K, count: nat)

  /** `d.get(k, 0)` */
  function Count<K(==,!new)>(t: seq<Entry<K>>, k: K): nat
  {
    if t == [] then 0
    else if t[0].key == k then t[0].count
    else Count(t[1..], k)
  }

  /** The sum of all counts. */
  function Total<K>(t: seq<Entry<K>>): nat
  {
    if t == [] then 0 else t[0].count + Total(t[1..])
  }

  predicate DistinctKeys<K(==,!new)>(t: seq<Entry<K>>)
  {
    forall i, j :: 0 <= i < j < |t| ==> t[i].key != t[j].key
  }

  /** Every key present was counted at least once. */
  predicate PositiveCounts<K>(t: seq<Entry<K>>)
  {
    forall i :: 0 <= i < |t| ==> t[i].count > 0
  }

  /** The keys of a counting dict, in insertion order. */
  function Keys<K>(t: seq<Entry<K>>): seq<K>
  {
    if t == [] then [] else [t[0].key] + Keys(t[1..])
  }

  /** `d[k] = d.get(k, 0) + 1`: an existing key is incremented where it stands, a new
      key is appended with count 1. */
  function Bump<K(==,!new)>(t: seq<Entry<K>>, k: K): (r: seq<Entry<K>>)
    ensures Total(r) == Total(t) + 1
    ensures Count(r, k) == Count(t, k) + 1
    ensures forall j :: j != k ==> Count(r, j) == Count(t, j)
    ensures PositiveCounts(t) ==> PositiveCounts(r)
  {
    if t == [] then [Entry(k, 1)]
    else if t[0].key == k then [Entry(k, t[0].count + 1)] + t[1..]
    else [t[0]] + Bump(t[1..], k)
  }

  /** Bumping adds the key if it is new and no other key; a new key goes last, and an
      existing one keeps its place. */
  lemma {:induction false} BumpKeys<K(!new)>(t: seq<Entry<K>>, k: K)
    ensures forall x :: x in Keys(Bump(t, k)) <==> x in Keys(t) || x == k
    ensures Keys(Bump(t, k)) == if k in Keys(t) then Keys(t) else Keys(t) + [k]
  {
    if t != [] && t[0].key != k {
      BumpKeys(t[1..], k);
      assert Bump(t, k) == [t[0]] + Bump(t[1..], k);
      assert Keys(t) == [t[0].key] + Keys(t[1..]);
      assert k in Keys(t) <==> k in Keys(t[1..]);
      assert [t[0].key] + (Keys(t[1..]) + [k]) == Keys(t) + [k];
    } else if t != [] {
      assert Bump(t, k)[1..] == t[1..];
    }
  }

  /** A dict's keys are distinct exactly when the first key does not recur and the
      rest are distinct. */
  lemma DistinctKeysCons<K(!new)>(t: seq<Entry<K>>)
    requires t != []
    ensures DistinctKeys(t) <==> t[0].key !in Keys(t[1..]) && DistinctKeys(t[1..])
  {
    KeysIndex(t[1..]);
    if DistinctKeys(t) {
      forall j | 0 <= j < |Keys(t[1..])| ensures Keys(t[1..])[j] != t[0].key {
        assert t[1..][j] == t[j + 1];
      }
      forall i, j | 0 <= i < j < |t[1..]| ensures t[1..][i].key != t[1..][j].key {
        assert t[1..][i] == t[i + 1] && t[1..][j] == t[j + 1];
      }
    } else {
      var i, j :| 0 <= i < j < |t| && t[i].key == t[j].key;
      if i == 0 {
        assert Keys(t[1..])[j - 1] == t[j].key;
      } else {
        assert t[1..][i - 1] == t[i] && t[1..][j - 1] == t[j];
      }
    }
  }

  /** The i-th key is the key of the i-th entry. */
  lemma {:induction false} KeysIndex<K>(t: seq<Entry<K>>)
    ensures |Keys(t)| == |t|
    ensures forall i :: 0 <= i < |t| ==> Keys(t)[i] == t[i].key
  {
    if t != [] {
      KeysIndex(t[1..]);
    }
  }

  /** Bumping keeps the keys distinct. */
  lemma {:induction false} BumpKeepsKeysDistinct<K(!new)>(t: seq<Entry<K>>, k: K)
    requires DistinctKeys(t)
    ensures DistinctKeys(Bump(t, k))
  {
    if t == [] {
    } else if t[0].key == k {
      DistinctKeysCons(t);
      DistinctKeysCons(Bump(t, k));
      assert Bump(t, k)[1..] == t[1..];
    } else {
      var r := Bump(t, k);
      DistinctKeysCons(t);
      BumpKeepsKeysDistinct(t[1..], k);
      BumpKeys(t[1..], k);
      assert r[1..] == Bump(t[1..], k);
      DistinctKeysCons(r);
    }
  }

  // ---------------------------------------------------------------------------
  // Summary
  // ---------------------------------------------------------------------------

  /** The classification a row is counted under; a NULL column is a key of its own. */
  datatype ClassKey = Kind(name: string) | NullKind

  datatype Bucket = High | Medium | Low

  /** A report row; `None` is a key missing from the row. */
  datatype Row = Row(
    classificationType: Option<ClassKey>,
    priority: Option<int>,
    stockValue: Option<real>,
    annualSalesValue: Option<real>,
    holdingCostAnnually: Option<real>)

  /** `row.get('classification_type', 'UNKNOWN')` */
  function ClassOf(row: Row): ClassKey
  {
    row.classificationType.GetOr(Kind("UNKNOWN"))
  }

  /** Priority buckets: HIGH from 8, MEDIUM from 5, LOW below; a missing priority is 5. */
  function BucketOf(row: Row): (b: Bucket)
    ensures b == High <==> row.priority.GetOr(5) >= 8
    ensures b == Medium <==> 5 <= row.priority.GetOr(5) < 8
    ensures b == Low <==> row.priority.GetOr(5) < 5
  {
    var p := row.priority.GetOr(5);
    if p >= 8 then High else if p >= 5 then Medium else Low
  }

  /** The rows counted under a classification key. */
  function RowsOfClass(rows: seq<Row>, k: ClassKey): nat
  {
    if rows == [] then 0
    else RowsOfClass(rows[..|rows| - 1], k) + (if ClassOf(rows[|rows| - 1]) == k then 1 else 0)
  }

  function RowsInBucket(rows: seq<Row>, b: Bucket): nat
  {
    if rows == [] then 0
    else RowsInBucket(rows[..|rows| - 1], b) + (if BucketOf(rows[|rows| - 1]) == b then 1 else 0)
  }

  /** The three buckets partition the rows. */
  lemma {:induction false} BucketsPartition(rows: seq<Row>)
    ensures RowsInBucket(rows, High) + RowsInBucket(rows, Medium) + RowsInBucket(rows, Low) == |rows|
  {
    if rows != [] {
      BucketsPartition(rows[..|rows| - 1]);
    }
  }

  /** The distinct elements of `s` in order of first occurrence. */
  function FirstOccurrences<K(==,!new)>(s: seq<K>): (r: seq<K>)
    ensures forall x :: x in r <==> x in s
  {
    if s == [] then []
    else
      var p := FirstOccurrences(s[..|s| - 1]);
      assert s == s[..|s| - 1] + [s[|s| - 1]];
      if s[|s| - 1] in p then p else p + [s[|s| - 1]]
  }

  function ClassKeys(rows: seq<Row>): seq<ClassKey>
  {
    seq(|rows|, i requires 0 <= i < |rows| => ClassOf(rows[i]))
  }

  function BucketKeys(rows: seq<Row>): seq<Bucket>
  {
    seq(|rows|, i requires 0 <= i < |rows| => BucketOf(rows[i]))
  }

  /** The classification dict after counting `rows` in order: one entry per key met, in
      the order the keys first appear, each holding that key's row count. */
  function ClassTally(rows: seq<Row>): (t: seq<Entry<ClassKey>>)
    ensures Total(t) == |rows|
    ensures DistinctKeys(t) && PositiveCounts(t)
    ensures Keys(t) == FirstOccurrences(ClassKeys(rows))
    ensures forall k :: Count(t, k) == RowsOfClass(rows, k)
  {
    if rows == [] then []
    else
      var t := ClassTally(rows[..|rows| - 1]);
      var k := ClassOf(rows[|rows| - 1]);
      BumpKeepsKeysDistinct(t, k);
      BumpKeys(t, k);
      assert ClassKeys(rows)[..|rows| - 1] == ClassKeys(rows[..|rows| - 1]);
      Bump(t, k)
  }

  /** The priority dict after counting `rows` in order, with the same guarantees. */
  function BucketTally(rows: seq<Row>): (t: seq<Entry<Bucket>>)
    ensures Total(t) == |rows|
    ensures DistinctKeys(t) && PositiveCounts(t)
    ensures Keys(t) == FirstOccurrences(BucketKeys(rows))
    ensures forall b :: Count(t, b) == RowsInBucket(rows, b)
  {
    if rows == [] then []
    else
      var t := BucketTally(rows[..|rows| - 1]);
      var b := BucketOf(rows[|rows| - 1]);
      BumpKeepsKeysDistinct(t, b);
      BumpKeys(t, b);
      assert BucketKeys(rows)[..|rows| - 1] == BucketKeys(rows[..|rows| - 1]);
      Bump(t, b)
  }

  function StockValues(rows: seq<Row>): seq<real>
  {
    seq(|rows|, i requires 0 <= i < |rows| => rows[i].stockValue.GetOr(0.0))
  }

  function SalesValues(rows: seq<Row>): seq<real>
  {
    seq(|rows|, i requires 0 <= i < |rows| => rows[i].annualSalesValue.GetOr(0.0))
  }

  function HoldingCosts(rows: seq<Row>): seq<real>
  {
    seq(|rows|, i requires 0 <= i < |rows| => rows[i].holdingCostAnnually.GetOr(0.0))
  }

  datatype Summary = Summary(
    totalItems: nat,
    totalStockValue: real,
    totalAnnualRevenue: real,
    totalHoldingCost: real,
    classificationSummary: seq<Entry<ClassKey>>,
    prioritySummary: seq<Entry<Bucket>>)

  /** `for row in data: d[key(row)] = d.get(key(row), 0) + 1` for the classification
      key. */
  method CountClasses(data: seq<Row>) returns (classes: seq<Entry<ClassKey>>)
    ensures classes == ClassTally(data)
  {
    classes := [];
    for i := 0 to |data|
      invariant classes == ClassTally(data[..i])
    {
      assert data[..i + 1][..i] == data[..i];
      classes := Bump(classes, ClassOf(data[i]));
    }
    assert data[..|data|] == data;
  }

  /** The same loop for the priority bucket. */
  method CountBuckets(data: seq<Row>) returns (priorities: seq<Entry<Bucket>>)
    ensures priorities == BucketTally(data)
  {
    priorities := [];
    for i := 0 to |data|
      invariant priorities == BucketTally(data[..i])
    {
      assert data[..i + 1][..i] == data[..i];
      priorities := Bump(priorities, BucketOf(data[i]));
    }
    assert data[..|data|] == data;
  }

  /** No rows give no summary. Otherwise the totals are the column sums and each row
      is counted once under its classification and once under its priority bucket
      (the tallies' own contracts: counts per key, distinct keys, counts adding up
      to the number of rows). */
  method CalculateSummary(data: seq<Row>) returns (r: Option<Summary>)
    ensures r == None <==> data == []
    ensures r.Some? ==>
      && r.value.totalItems == |data|
      && r.value.totalStockValue == Sum(StockValues(data))
      && r.value.totalAnnualRevenue == Sum(SalesValues(data))
      && r.value.totalHoldingCost == Sum(HoldingCosts(data))
      && r.value.classificationSummary == ClassTally(data)
      && r.value.prioritySummary == BucketTally(data)
  {
    if data == [] {
      return None;
    }
    var classes := CountClasses(data);
    var priorities := CountBuckets(data);
    r := Some(Summary(|data|, Sum(StockValues(data)), Sum(SalesValues(data)), Sum(HoldingCosts(data)),
                      classes, priorities));
  }
}
