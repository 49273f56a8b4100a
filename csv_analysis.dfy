/**
 * The structured query tool over the two gold tables: a `filter` query
 * coerces its literal to the column's dtype and keeps the matching rows (at
 * most ten), a `top_n` query ranks the rows by a numeric column. Every failure
 * comes back as a message string; an unknown query type returns None.
 */
module CsvAnalysis {
  import opened Wrappers
  import opened Text
  import opened Frames
  import opened ToolSchema
  import Seqs

  /** The dtype pandas gave a column when the gold CSV was read. */
  datatype DType = DBool | DInt | DFloat | DObject

  /** A gold table: the dtype of each column, and the rows. */
  datatype GoldTable = GoldTable(dtypes: map<string, DType>, rows: seq<Row>)

  /** What the tool hands back: a message string, a frame to render, or None. */
  datatype Reply = Message(text: string) | Rendered(rows: seq<Row>) | NoReply

  const DefaultOperator: string := "=="
  const DefaultN: int := 5
  /** A filter's result is cut to its first rows (`head(10)`). */
  const FilterRowCap: int := 10
  const Operators: seq<string> := ["==", ">", "<", "contains"]
  const QueryTypes: seq<string> := ["filter", "top_n"]

  /** Any name other than "customers" selects the transactions table. */
  function SelectTable(tableName: string, customers: GoldTable, transactions: GoldTable): GoldTable {
    if tableName == "customers" then customers else transactions
  }

  /** `f"{value}"` / `str(value)` of the optional literal text. */
  function ValueText(value: Option<string>): string {
    match value
    case Some(s) => s
    case None => "None"
  }

  function ColumnNotFoundText(column: string, tableName: string): string {
    "Error: Column '" + column + "' not found in " + tableName + "."
  }

  function AnalysisErrorText(error: string): string {
    "Analysis Error: " + error
  }

  function NoRecordsText(tableName: string, column: string, operator: string, value: Option<string>): string {
    "No records found in " + tableName + " where " + column + " " + operator + " " + ValueText(value) + "."
  }

  predicate IsColumnError(m: string) { "Error: Column '" <= m }
  predicate IsAnalysisError(m: string) { "Analysis Error: " <= m }
  predicate IsNoRecords(m: string) { "No records found in " <= m }

  /** Each message kind is told apart by its first letter. */
  lemma MessageKinds(column: string, tableName: string, error: string, operator: string, value: Option<string>)
    ensures var m := ColumnNotFoundText(column, tableName);
      IsColumnError(m) && !IsAnalysisError(m) && !IsNoRecords(m)
    ensures var m := AnalysisErrorText(error);
      !IsColumnError(m) && IsAnalysisError(m) && !IsNoRecords(m)
    ensures var m := NoRecordsText(tableName, column, operator, value);
      !IsColumnError(m) && !IsAnalysisError(m) && IsNoRecords(m)
  {
    var c := ColumnNotFoundText(column, tableName);
    var a := AnalysisErrorText(error);
    var n := NoRecordsText(tableName, column, operator, value);
    assert c[0] == 'E' && a[0] == 'A' && n[0] == 'N';
    assert c[..15] == "Error: Column '";
    assert a[..16] == "Analysis Error: ";
    assert n[..20] == "No records found in ";
  }

  /** The message of the UnboundLocalError raised when no operator branch assigned `result`. */
  const UnboundResultText: string := "cannot access local variable 'result' where it is not associated with a value"

  /** Messages of the conversions `bool`/`int`/`float` applied to the literal. */
  const BoolNoneText: string := "'NoneType' object has no attribute 'lower'"
  const IntNoneText: string := "int() argument must be a string, a bytes-like object or a real number, not 'NoneType'"
  const FloatNoneText: string := "float() argument must be a string or a real number, not 'NoneType'"
  const IntInvalidText: string := "invalid literal for int() with base 10: '"
  const FloatInvalidText: string := "could not convert string to float: '"

  /** Step 1 of a filter: the literal text converted by the column's dtype. */
  function Coerce(dtype: DType, value: Option<string>): (r: Result<Literal>)
    ensures dtype == DBool && value.Some? ==> r == Ok(LBool(Lower(value.value) == "true"))
    ensures dtype == DBool && value.None? ==> r.Err?
    ensures dtype == DInt ==> (r.Ok? <==> value.Some? && ParseInt(value.value).Some?)
    ensures dtype == DInt && r.Ok? ==> r.value == LInt(ParseInt(value.value).value)
    ensures dtype == DFloat ==> (r.Ok? <==> value.Some? && ParseDecimal(value.value).Some?)
    ensures dtype == DFloat && r.Ok? ==> r.value == LNum(ParseDecimal(value.value).value)
    ensures dtype == DObject ==> r == Ok(LStr(ValueText(value)))
  {
    match dtype
    case DBool =>
      if value.None? then Err(BoolNoneText)
      else Ok(LBool(Lower(value.value) == "true"))
    case DInt =>
      if value.None? then Err(IntNoneText)
      else (match ParseInt(value.value)
        case Some(i) => Ok(LInt(i))
        case None => Err(IntInvalidText + value.value + "'"))
    case DFloat =>
      if value.None? then Err(FloatNoneText)
      else (match ParseDecimal(value.value)
        case Some(x) => Ok(LNum(x))
        case None => Err(FloatInvalidText + value.value + "'"))
    case DObject => Ok(LStr(ValueText(value)))
  }

  /** Step 2 of a filter: whether one row passes the operator. */
  function RowTest(row: Row, column: string, operator: string, lit: Literal, value: Option<string>): Result<bool> {
    var v := Cell(row, column);
    if operator == "==" then Ok(CellEquals(v, lit))
    else if operator == ">" then CellCompare(v, Greater, lit)
    else if operator == "<" then CellCompare(v, Less, lit)
    else if operator == "contains" then Ok(IsSubstring(Lower(ValueText(value)), Lower(CellText(v))))
    else Err(UnboundResultText)
  }

  function Matcher(column: string, operator: string, lit: Literal, value: Option<string>): Row -> Result<bool> {
    (row: Row) => RowTest(row, column, operator, lit, value)
  }

  function Holds(test: Row -> Result<bool>): Row -> bool {
    (row: Row) => test(row).Ok? && test(row).value
  }

  /**
   * Boolean-mask selection with a test that may raise: the matching rows in
   * table order, or the first row's error when any row's test raises.
   */
  function SelectRows(rows: seq<Row>, test: Row -> Result<bool>): (r: Result<seq<Row>>)
    ensures r.Ok? <==> forall x :: x in rows ==> test(x).Ok?
    ensures r.Ok? ==> r.value == Seqs.Filter(rows, Holds(test))
  {
    if rows == [] then Ok([])
    else
      assert forall x :: x in rows <==> x == rows[0] || x in rows[1..];
      match test(rows[0])
      case Err(e) => Err(e)
      case Ok(b) =>
        match SelectRows(rows[1..], test)
        case Err(e) => Err(e)
        case Ok(rest) => Ok(if b then [rows[0]] + rest else rest)
  }

  /**
   * A filter query: coercion, then the operator, then the mask. It succeeds
   * iff the literal converts, the operator is one of the four and no row's
   * test raises; it then keeps exactly the rows whose test holds, in order.
   */
  function FilterQuery(t: GoldTable, column: string, operator: string, value: Option<string>): (r: Result<seq<Row>>)
    requires column in t.dtypes
    ensures var lit := Coerce(t.dtypes[column], value);
      r.Ok? <==> lit.Ok? && operator in Operators && forall x :: x in t.rows ==> RowTest(x, column, operator, lit.value, value).Ok?
    ensures Coerce(t.dtypes[column], value).Err? ==> r == Err(Coerce(t.dtypes[column], value).error)
    ensures r.Ok? ==> r.value == Seqs.Filter(t.rows, Holds(Matcher(column, operator, Coerce(t.dtypes[column], value).value, value)))
    ensures r.Ok? ==> multiset(r.value) <= multiset(t.rows)
  {
    match Coerce(t.dtypes[column], value)
    case Err(e) => Err(e)
    case Ok(lit) =>
      if operator !in Operators then Err(UnboundResultText)
      else
        Seqs.FilterSubMultiset(t.rows, Holds(Matcher(column, operator, lit, value)));
        SelectRows(t.rows, Matcher(column, operator, lit, value))
  }

  // ---- ranking ----

  /** The row has a number in `column` (a bool counts as 0/1); only such rows are ranked by it. */
  predicate HasRank(row: Row, column: string) {
    Numeric(Cell(row, column)).Some?
  }

  function RankKey(row: Row, column: string): real {
    match Numeric(Cell(row, column))
    case Some(x) => x
    case None => 0.0
  }

  function IsRanked(column: string): Row -> bool {
    (row: Row) => HasRank(row, column)
  }

  function IsUnranked(column: string): Row -> bool {
    (row: Row) => !HasRank(row, column)
  }

  /** `a` may precede `b` in a descending ranking. */
  function RanksBefore(column: string): (Row, Row) -> bool {
    (a: Row, b: Row) => RankKey(a, column) >= RankKey(b, column)
  }

  lemma RanksBeforeIsPreorder(column: string)
    ensures Seqs.Total(RanksBefore(column)) && Seqs.Transitive(RanksBefore(column))
  {
  }

  /** Ranked rows come before every unranked row, in descending order of `column`. */
  ghost predicate RankedFirstDescending(r: seq<Row>, column: string) {
    forall i, j :: 0 <= i < j < |r| && HasRank(r[j], column) ==>
      HasRank(r[i], column) && RankKey(r[i], column) >= RankKey(r[j], column)
  }

  /** No ranked row among `omitted` exceeds a ranked row of `r`. */
  ghost predicate NoneOmittedLarger(r: seq<Row>, omitted: multiset<Row>, column: string) {
    forall i, x :: 0 <= i < |r| && HasRank(r[i], column) && x in omitted && HasRank(x, column) ==>
      RankKey(x, column) <= RankKey(r[i], column)
  }

  /** How many rows have a number in `column`. */
  function RankedCount(rows: seq<Row>, column: string): nat {
    |Seqs.Filter(rows, IsRanked(column))|
  }

  /** The full ranking: the ranked rows sorted descending (stably), then the unranked rows in table order. */
  function Ranking(rows: seq<Row>, column: string): (r: seq<Row>)
    ensures multiset(r) == multiset(rows)
    ensures RankedCount(rows, column) <= |r| && RankingSplit(r, RankedCount(rows, column), column)
  {
    var ranked := Seqs.Filter(rows, IsRanked(column));
    var unranked := Seqs.Filter(rows, IsUnranked(column));
    RanksBeforeIsPreorder(column);
    var sorted := Seqs.Sort(ranked, RanksBefore(column));
    Seqs.FilterPartition(rows, IsRanked(column), IsUnranked(column));
    ConcatSplit(sorted, ranked, unranked, column);
    sorted + unranked
  }

  lemma ConcatSplit(sorted: seq<Row>, ranked: seq<Row>, unranked: seq<Row>, column: string)
    requires multiset(sorted) == multiset(ranked) && Seqs.Sorted(sorted, RanksBefore(column))
    requires forall x :: x in ranked ==> IsRanked(column)(x)
    requires forall x :: x in unranked ==> IsUnranked(column)(x)
    ensures RankingSplit(sorted + unranked, |sorted|, column)
  {
    var r := sorted + unranked;
    assert r[..|sorted|] == sorted;
    forall i | 0 <= i < |sorted| ensures HasRank(r[i], column) {
      assert sorted[i] in multiset(ranked);
      assert IsRanked(column)(sorted[i]);
    }
    forall i | |sorted| <= i < |r| ensures !HasRank(r[i], column) {
      assert r[i] == unranked[i - |sorted|];
      assert IsUnranked(column)(unranked[i - |sorted|]);
    }
  }

  /** The first `k` rows are ranked and sorted descending; the rest are unranked. */
  ghost predicate RankingSplit(r: seq<Row>, k: int, column: string)
    requires 0 <= k <= |r|
  {
    && Seqs.Sorted(r[..k], RanksBefore(column))
    && (forall i :: 0 <= i < k ==> HasRank(r[i], column))
    && (forall i :: k <= i < |r| ==> !HasRank(r[i], column))
  }

  /** In a split ranking, a ranked row is preceded only by ranked rows with at least its value. */
  lemma RankingPair(all: seq<Row>, k: int, column: string, i: int, j: int)
    requires 0 <= k <= |all| && RankingSplit(all, k, column)
    requires 0 <= i < j < |all| && HasRank(all[j], column)
    ensures HasRank(all[i], column) && RankKey(all[i], column) >= RankKey(all[j], column)
  {
    assert j < k;
    assert all[..k][i] == all[i] && all[..k][j] == all[j];
    assert RanksBefore(column)(all[..k][i], all[..k][j]);
  }

  lemma RankingOrder(all: seq<Row>, k: int, column: string, n: int)
    requires 0 <= k <= |all| && RankingSplit(all, k, column)
    ensures RankedFirstDescending(Seqs.Take(all, n), column)
  {
    var r := Seqs.Take(all, n);
    forall i, j | 0 <= i < j < |r| && HasRank(r[j], column)
      ensures HasRank(r[i], column) && RankKey(r[i], column) >= RankKey(r[j], column)
    {
      assert r[j] == all[j] && r[i] == all[i];
      RankingPair(all, k, column, i, j);
    }
  }

  lemma RankingLargest(all: seq<Row>, k: int, column: string, n: int)
    requires 0 <= k <= |all| && RankingSplit(all, k, column)
    ensures var r := Seqs.Take(all, n);
      NoneOmittedLarger(r, multiset(all) - multiset(r), column)
  {
    var r := Seqs.Take(all, n);
    var rest := all[|r|..];
    Seqs.TakeRest(all, n);
    forall i, x | 0 <= i < |r| && HasRank(r[i], column) && x in multiset(rest) && HasRank(x, column)
      ensures RankKey(x, column) <= RankKey(r[i], column)
    {
      assert x in rest;
      var m :| 0 <= m < |rest| && rest[m] == x;
      assert all[|r| + m] == x && r[i] == all[i];
      RankingPair(all, k, column, i, |r| + m);
    }
  }

  /**
   * `nlargest(n, column)` on a numeric column: the rows in descending order of
   * the column, rows without a value after all ranked rows, the first `n` kept.
   */
  function TopRows(rows: seq<Row>, column: string, n: int): (r: seq<Row>)
    ensures |r| == if n <= 0 then 0 else if n < |rows| then n else |rows|
    ensures multiset(r) <= multiset(rows)
    ensures n >= |rows| ==> multiset(r) == multiset(rows)
    ensures RankedFirstDescending(r, column)
    ensures NoneOmittedLarger(r, multiset(rows) - multiset(r), column)
    ensures forall i :: 0 <= i < |r| && !HasRank(r[i], column) ==> RankedCount(rows, column) <= i
  {
    var all := Ranking(rows, column);
    var k := RankedCount(rows, column);
    Seqs.TakeSubMultiset(all, n);
    RankingOrder(all, k, column, n);
    RankingLargest(all, k, column, n);
    RankingNullsLast(all, k, column, n);
    Seqs.Take(all, n)
  }

  /** In a split ranking, a prefix holds a row without a number only after all `k` ranked rows. */
  lemma RankingNullsLast(all: seq<Row>, k: int, column: string, n: int)
    requires 0 <= k <= |all| && RankingSplit(all, k, column)
    ensures var r := Seqs.Take(all, n);
      forall i :: 0 <= i < |r| && !HasRank(r[i], column) ==> k <= i
  {
    var r := Seqs.Take(all, n);
    forall i | 0 <= i < |r| && !HasRank(r[i], column) ensures k <= i {
      assert r[i] == all[i];
    }
  }

  /** `df.nlargest(n, column)`: refused on an object column, as pandas does. */
  function NLargest(t: GoldTable, column: string, n: int): Result<seq<Row>>
    requires column in t.dtypes
  {
    if t.dtypes[column] == DObject then
      Err("Column '" + column + "' has dtype object, cannot use method 'nlargest' with this dtype")
    else Ok(TopRows(t.rows, column, n))
  }

  /** The `filter` branch: an analysis error, the "no records" message, or the first matching rows. */
  function FilterReply(t: GoldTable, tableName: string, column: string, operator: string, value: Option<string>): (r: Reply)
    requires column in t.dtypes
    ensures var q := FilterQuery(t, column, operator, value);
      (q.Err? ==> r == Message(AnalysisErrorText(q.error)))
      && (q.Ok? && q.value == [] ==> r == Message(NoRecordsText(tableName, column, operator, value)))
      && (q.Ok? && q.value != [] ==> r == Rendered(Seqs.Take(q.value, FilterRowCap)))
    ensures r.Message? ==>
      (!IsColumnError(r.text) && IsAnalysisError(r.text) && !IsNoRecords(r.text)) ||
      (!IsColumnError(r.text) && !IsAnalysisError(r.text) && IsNoRecords(r.text))
    ensures r.Rendered? ==> multiset(r.rows) <= multiset(t.rows) && 1 <= |r.rows| <= FilterRowCap
    ensures !r.NoReply?
  {
    match FilterQuery(t, column, operator, value)
    case Err(e) => MessageKinds(column, tableName, e, operator, value); Message(AnalysisErrorText(e))
    case Ok(rows) =>
      if rows == [] then MessageKinds(column, tableName, "", operator, value); Message(NoRecordsText(tableName, column, operator, value))
      else Seqs.TakeSubMultiset(rows, FilterRowCap); Rendered(Seqs.Take(rows, FilterRowCap))
  }

  /** The `top_n` branch: the ranked rows, or the analysis error of `nlargest`. */
  function TopNReply(t: GoldTable, tableName: string, column: string, operator: string, value: Option<string>, n: int): (r: Reply)
    requires column in t.dtypes
    ensures r.Message? ==> !IsColumnError(r.text) && IsAnalysisError(r.text) && !IsNoRecords(r.text)
    ensures r.Rendered? ==> multiset(r.rows) <= multiset(t.rows) && |r.rows| <= if n <= 0 then 0 else n
    ensures !r.NoReply?
  {
    match NLargest(t, column, n)
    case Ok(rows) => Rendered(rows)
    case Err(e) => MessageKinds(column, tableName, e, operator, value); Message(AnalysisErrorText(e))
  }

  /** `execute_data_analysis(query_type, table_name, column, value, operator, n)`. */
  function ExecuteDataAnalysis(
    customers: GoldTable, transactions: GoldTable,
    queryType: string, tableName: string, column: string,
    value: Option<string>, operator: string, n: int): (r: Reply)
    ensures var t := SelectTable(tableName, customers, transactions);
      column !in t.dtypes ==> r == Message(ColumnNotFoundText(column, tableName))
    ensures var t := SelectTable(tableName, customers, transactions);
      r.NoReply? <==> column in t.dtypes && queryType != "top_n" && queryType != "filter"
    ensures r.Message? ==>
      (IsColumnError(r.text) && !IsAnalysisError(r.text) && !IsNoRecords(r.text)) ||
      (!IsColumnError(r.text) && IsAnalysisError(r.text) && !IsNoRecords(r.text)) ||
      (!IsColumnError(r.text) && !IsAnalysisError(r.text) && IsNoRecords(r.text))
    ensures r.Rendered? ==> multiset(r.rows) <= multiset(SelectTable(tableName, customers, transactions).rows)
    ensures r.Rendered? && queryType == "filter" ==> 1 <= |r.rows| <= FilterRowCap
    ensures r.Rendered? && queryType == "top_n" ==> |r.rows| <= if n <= 0 then 0 else n
  {
    var t := SelectTable(tableName, customers, transactions);
    if column !in t.dtypes then MessageKinds(column, tableName, "", operator, value); Message(ColumnNotFoundText(column, tableName))
    else if queryType == "top_n" then TopNReply(t, tableName, column, operator, value, n)
    else if queryType == "filter" then FilterReply(t, tableName, column, operator, value)
    else NoReply
  }

  // ---- properties of the query tool ----

  function IntEquals(column: string, i: int): Row -> bool {
    (row: Row) => Numeric(Cell(row, column)) == Some(i as real)
  }

  /**
   * On an integer column, `filter` with `==` and a literal that `int()` reads
   * as `i` returns exactly the rows whose value is `i`, in table order and at
   * most ten of them, or the "no records" message when there are none.
   */
  lemma FilterIntEquality(customers: GoldTable, transactions: GoldTable, tableName: string, column: string, s: string, i: int, n: int)
    requires var t := SelectTable(tableName, customers, transactions);
      column in t.dtypes && t.dtypes[column] == DInt
    requires ParseInt(s) == Some(i)
    ensures var t := SelectTable(tableName, customers, transactions);
      var matches := Seqs.Filter(t.rows, IntEquals(column, i));
      ExecuteDataAnalysis(customers, transactions, "filter", tableName, column, Some(s), "==", n)
        == if matches == [] then Message(NoRecordsText(tableName, column, "==", Some(s)))
           else Rendered(Seqs.Take(matches, FilterRowCap))
  {
    var t := SelectTable(tableName, customers, transactions);
    var test := Matcher(column, "==", LInt(i), Some(s));
    Seqs.FilterSameMask(t.rows, Holds(test), IntEquals(column, i));
  }

  /**
   * A customer lookup `filter(customers, customer_id, ==, s)`, where `int(s)`
   * is an id that exactly one row carries, returns exactly that row.
   */
  lemma LookupSingleCustomer(customers: GoldTable, transactions: GoldTable, s: string, i: int, k: nat)
    requires "customer_id" in customers.dtypes && customers.dtypes["customer_id"] == DInt
    requires ParseInt(s) == Some(i)
    requires k < |customers.rows| && Cell(customers.rows[k], "customer_id") == VInt(i)
    requires forall j :: 0 <= j < |customers.rows| && j != k ==> Cell(customers.rows[j], "customer_id") != VInt(i)
    requires forall j :: 0 <= j < |customers.rows| ==> Cell(customers.rows[j], "customer_id").VInt?
    ensures ExecuteDataAnalysis(customers, transactions, "filter", "customers", "customer_id", Some(s), "==", DefaultN)
      == Rendered([customers.rows[k]])
  {
    FilterIntEquality(customers, transactions, "customers", "customer_id", s, i, DefaultN);
    SingleMatch(customers.rows, "customer_id", i, k);
  }

  /** When only row `k` of an integer column holds `i`, selecting by `== i` keeps that row alone. */
  lemma SingleMatch(rows: seq<Row>, column: string, i: int, k: nat)
    requires k < |rows| && Cell(rows[k], column) == VInt(i)
    requires forall j :: 0 <= j < |rows| && j != k ==> Cell(rows[j], column) != VInt(i)
    requires forall j :: 0 <= j < |rows| ==> Cell(rows[j], column).VInt?
    ensures Seqs.Filter(rows, IntEquals(column, i)) == [rows[k]]
  {
    var p := IntEquals(column, i);
    forall j | 0 <= j < |rows| ensures p(rows[j]) <==> j == k {
      assert Cell(rows[j], column).VInt?;
    }
    Seqs.FilterSingle(rows, p, k);
  }

  /** A row whose number in `column` stands to `x` as `operator` (`==`, `>` or `<`) says. */
  function NumericMatch(column: string, operator: string, x: real): Row -> bool {
    (row: Row) =>
      var v := Numeric(Cell(row, column));
      v.Some? && (if operator == "==" then v.value == x else if operator == ">" then v.value > x else v.value < x)
  }

  /**
   * On an integer or float column holding only numbers (and, for floats,
   * nulls), `filter` with `==`, `>` or `<` and a literal the column's
   * conversion reads as `x` keeps exactly the rows whose number stands to `x`
   * as the operator says, nulls never, in table order and at most ten of
   * them, or reports "no records" when there are none.
   */
  lemma FilterNumeric(customers: GoldTable, transactions: GoldTable, tableName: string, column: string,
                      s: string, operator: string, x: real, n: int)
    requires var t := SelectTable(tableName, customers, transactions);
      column in t.dtypes && (t.dtypes[column] == DInt || t.dtypes[column] == DFloat) && ColumnTyped(t, column)
    requires var t := SelectTable(tableName, customers, transactions);
      t.dtypes[column] == DInt ==> ParseInt(s).Some? && x == ParseInt(s).value as real
    requires var t := SelectTable(tableName, customers, transactions);
      t.dtypes[column] == DFloat ==> ParseDecimal(s) == Some(x)
    requires operator == "==" || operator == ">" || operator == "<"
    ensures var t := SelectTable(tableName, customers, transactions);
      var matches := Seqs.Filter(t.rows, NumericMatch(column, operator, x));
      ExecuteDataAnalysis(customers, transactions, "filter", tableName, column, Some(s), operator, n)
        == if matches == [] then Message(NoRecordsText(tableName, column, operator, Some(s)))
           else Rendered(Seqs.Take(matches, FilterRowCap))
  {
    var t := SelectTable(tableName, customers, transactions);
    NumericQuery(t, column, s, operator, x);
  }

  /** The filter query behind `FilterNumeric`: no row raises, and the mask is the numeric comparison. */
  lemma NumericQuery(t: GoldTable, column: string, s: string, operator: string, x: real)
    requires column in t.dtypes && (t.dtypes[column] == DInt || t.dtypes[column] == DFloat) && ColumnTyped(t, column)
    requires t.dtypes[column] == DInt ==> ParseInt(s).Some? && x == ParseInt(s).value as real
    requires t.dtypes[column] == DFloat ==> ParseDecimal(s) == Some(x)
    requires operator == "==" || operator == ">" || operator == "<"
    ensures FilterQuery(t, column, operator, Some(s)) == Ok(Seqs.Filter(t.rows, NumericMatch(column, operator, x)))
  {
    var lit := Coerce(t.dtypes[column], Some(s)).value;
    assert LiteralNumeric(lit) == Some(x);
    var test := Matcher(column, operator, lit, Some(s));
    forall row | row in t.rows
      ensures test(row).Ok? && (test(row).value <==> NumericMatch(column, operator, x)(row))
    {
      assert Cell(row, column).VInt? || Cell(row, column).VNum? || Cell(row, column).Missing?;
    }
    Seqs.FilterSameMask(t.rows, Holds(test), NumericMatch(column, operator, x));
  }

  /** Every cell of `column` holds a value of the column's dtype, or null where the dtype allows it. */
  predicate ColumnTyped(t: GoldTable, column: string)
    requires column in t.dtypes
  {
    forall row :: row in t.rows ==>
      match t.dtypes[column]
      case DBool => Cell(row, column).VBool?
      case DInt => Cell(row, column).VInt?
      case DFloat => Cell(row, column).VNum? || Cell(row, column).Missing?
      case DObject => Cell(row, column).VStr? || Cell(row, column).Missing?
  }

  /**
   * On a boolean column the literal becomes `value.lower() == "true"`, so any
   * text is accepted: with a supported operator the filter never reports an
   * analysis error.
   */
  lemma BoolFilterNeverFails(customers: GoldTable, transactions: GoldTable, tableName: string, column: string, s: string, operator: string)
    requires var t := SelectTable(tableName, customers, transactions);
      column in t.dtypes && t.dtypes[column] == DBool && ColumnTyped(t, column)
    requires operator in Operators
    ensures var r := ExecuteDataAnalysis(customers, transactions, "filter", tableName, column, Some(s), operator, DefaultN);
      r.Rendered? || r == Message(NoRecordsText(tableName, column, operator, Some(s)))
  {
    var t := SelectTable(tableName, customers, transactions);
    var lit := LBool(Lower(s) == "true");
    var test := Matcher(column, operator, lit, Some(s));
    forall x | x in t.rows ensures test(x).Ok? {
      assert Cell(x, column).VBool?;
    }
  }

  /**
   * `contains` still converts the literal first: on an integer column a
   * literal `int()` cannot read is an analysis error, not a text match.
   */
  lemma ContainsCoercesFirst(customers: GoldTable, transactions: GoldTable, tableName: string, column: string, s: string)
    requires var t := SelectTable(tableName, customers, transactions);
      column in t.dtypes && t.dtypes[column] == DInt
    requires ParseInt(s).None?
    ensures ExecuteDataAnalysis(customers, transactions, "filter", tableName, column, Some(s), "contains", DefaultN)
      == Message(AnalysisErrorText(IntInvalidText + s + "'"))
  {
  }

  function ContainsText(column: string, s: string): Row -> bool {
    (row: Row) => IsSubstring(Lower(s), Lower(CellText(Cell(row, column))))
  }

  /**
   * On a text column, `contains` keeps the rows whose rendered value contains
   * the literal ignoring letter case (a null renders as "nan").
   */
  lemma ContainsIgnoresCase(customers: GoldTable, transactions: GoldTable, tableName: string, column: string, s: string)
    requires var t := SelectTable(tableName, customers, transactions);
      column in t.dtypes && t.dtypes[column] == DObject
    ensures var t := SelectTable(tableName, customers, transactions);
      var matches := Seqs.Filter(t.rows, ContainsText(column, s));
      ExecuteDataAnalysis(customers, transactions, "filter", tableName, column, Some(s), "contains", DefaultN)
        == if matches == [] then Message(NoRecordsText(tableName, column, "contains", Some(s)))
           else Rendered(Seqs.Take(matches, FilterRowCap))
  {
    var t := SelectTable(tableName, customers, transactions);
    var test := Matcher(column, "contains", LStr(s), Some(s));
    Seqs.FilterSameMask(t.rows, Holds(test), ContainsText(column, s));
  }

  /** An operator outside the four is an analysis error once the literal converts, even on an empty table. */
  lemma UnsupportedOperatorFails(customers: GoldTable, transactions: GoldTable, tableName: string, column: string, value: Option<string>, operator: string)
    requires var t := SelectTable(tableName, customers, transactions);
      column in t.dtypes && Coerce(t.dtypes[column], value).Ok?
    requires operator !in Operators
    ensures ExecuteDataAnalysis(customers, transactions, "filter", tableName, column, value, operator, DefaultN)
      == Message(AnalysisErrorText(UnboundResultText))
  {
  }

  /**
   * `top_n` on a numeric column returns `n` rows (all of them when the table
   * is smaller), ranked rows first in descending order, rows without a number
   * only once every ranked row is in, and no ranked row left out exceeds one
   * returned.
   */
  lemma TopNRanksLargest(customers: GoldTable, transactions: GoldTable, tableName: string, column: string, n: int)
    requires var t := SelectTable(tableName, customers, transactions);
      column in t.dtypes && t.dtypes[column] != DObject
    ensures var t := SelectTable(tableName, customers, transactions);
      var r := ExecuteDataAnalysis(customers, transactions, "top_n", tableName, column, None, DefaultOperator, n);
      && r.Rendered?
      && |r.rows| == (if n <= 0 then 0 else if n < |t.rows| then n else |t.rows|)
      && (n >= |t.rows| ==> multiset(r.rows) == multiset(t.rows))
      && RankedFirstDescending(r.rows, column)
      && NoneOmittedLarger(r.rows, multiset(t.rows) - multiset(r.rows), column)
      && (forall i :: 0 <= i < |r.rows| && !HasRank(r.rows[i], column) ==> RankedCount(t.rows, column) <= i)
  {
  }

  /** `top_n` on a text column is refused by pandas and reported as an analysis error. */
  lemma TopNOnTextFails(customers: GoldTable, transactions: GoldTable, tableName: string, column: string, n: int)
    requires var t := SelectTable(tableName, customers, transactions);
      column in t.dtypes && t.dtypes[column] == DObject
    ensures var r := ExecuteDataAnalysis(customers, transactions, "top_n", tableName, column, None, DefaultOperator, n);
      r.Message? && IsAnalysisError(r.text)
  {
  }

  // ---- the published schema ----

  /** `get_csv_tool_definition()`. */
  function GetCsvToolDefinition(): (d: ToolDefinition)
    ensures d.name == "execute_data_analysis"
    ensures AllowedValues(d, "query_type") == QueryTypes
    ensures AllowedValues(d, "operator") == ["==", "contains", ">", "<"]
    ensures forall op :: op in AllowedValues(d, "operator") <==> op in Operators
    ensures AllowedValues(d, "table_name") == ["customers", "transactions"]
    ensures "n" in d.properties && d.properties["n"].kind == JsonInteger && d.properties["n"].default == Some(DefaultN)
    ensures "value" in d.properties && d.properties["value"].kind == JsonString
    ensures d.required == ["query_type", "table_name", "column"]
    ensures RequiredDeclared(d) && "value" !in d.required && "operator" !in d.required
  {
    ToolDefinition(
      "execute_data_analysis",
      CsvToolText,
      map[
        "query_type" := Property(JsonString, Some(["filter", "top_n"]), None, QueryTypeText),
        "table_name" := Property(JsonString, Some(["customers", "transactions"]), None, TableNameText),
        "column" := Property(JsonString, None, None, ColumnText),
        "operator" := Property(JsonString, Some(["==", "contains", ">", "<"]), None, OperatorText),
        "value" := Property(JsonString, None, None, ValueParameterText),
        "n" := Property(JsonInteger, None, Some(5), CountText)
      ],
      ["query_type", "table_name", "column"])
  }

  const CsvToolText: string :=
    "Essential for behavioral analysis and specific customer lookups in the Nordic finance datasets. "
    + "Query the Nordic finance gold datasets (customers and transactions)."
  const QueryTypeText: string :=
    "Use 'filter' for specific lookups (e.g., ID=123) or 'top_n' for rankings (e.g., top spenders)."
  const TableNameText: string := "Which table to query."
  const ColumnText: string :=
    "For 'customers' use: customer_id, country, signup_date, email, total_spend_eur, "
    + "avg_transaction_value, transaction_frequency, last_tx_date, recency_days, high_ticket_user, cross_border_count. "
    + "For 'transactions' use: transaction_id, customer_id, amount, currency, timestamp, category, amount_eur."
  const OperatorText: string := "Comparison operator. Use 'contains' for partial text matches."
  const ValueParameterText: string := "The value to filter by. For booleans (high_ticket_user), use 'True' or 'False'."
  const CountText: string := "Number of rows to return (for top_n queries)."
}
