/**
 * Cleaning of the raw tables. Transactions go through seven steps: exact
 * duplicates removed, rows without a customer dropped, identifiers cast to
 * nullable integers, timestamps and amounts parsed (unparseable ones become
 * null and are dropped), currency upper-cased, non-positive amounts removed,
 * category and currency normalised with imputation flags, and finally a
 * stable sort by customer and time. Customers get a parsed signup date,
 * integer ids and upper-cased countries, and lose rows without an id.
 */
module Transform {
  import opened Wrappers
  import opened Text
  import opened Frames
  import Seqs

  // ---- cell conversions ----

  /** `astype('Int64')` of one cell: integers and integral floats convert, nulls stay null. */
  function CastInt64(v: Value): (r: Result<Value>)
    ensures v.Missing? ==> r == Ok(Missing)
    ensures r.Ok? && !v.Missing? ==> r.value.VInt? && Numeric(v) == Some(r.value.i as real)
    ensures r.Err? <==> v.VStr? || v.VTime? || (v.VNum? && v.r != v.r.Floor as real)
  {
    match v
    case Missing => Ok(Missing)
    case VBool(b) => Ok(VInt(if b then 1 else 0))
    case VInt(i) => Ok(VInt(i))
    case VNum(x) =>
      if x.Floor as real == x then Ok(VInt(x.Floor))
      else Err("cannot safely cast non-equivalent float64 to int64")
    case VStr(_) => Err("object cannot be converted to an IntegerDtype")
    case VTime(_) => Err("object cannot be converted to an IntegerDtype")
  }

  predicate Castable(v: Value) {
    CastInt64(v).Ok?
  }

  function CastValue(v: Value): Value {
    match CastInt64(v)
    case Ok(x) => x
    case Err(_) => Missing
  }

  /** `pd.to_datetime(..., errors='coerce')` of one cell: what `parseTime` cannot read becomes null. */
  function ToDatetime(v: Value, parseTime: Value -> Option<int>): (r: Value)
    ensures r.Missing? || r.VTime?
    ensures v.Missing? ==> r.Missing?
    ensures v.VTime? ==> r == v
    ensures !v.Missing? && !v.VTime? ==> (r.VTime? <==> parseTime(v).Some?)
  {
    match v
    case Missing => Missing
    case VTime(_) => v
    case _ =>
      match parseTime(v)
      case Some(t) => VTime(t)
      case None => Missing
  }

  /**
   * `pd.to_numeric(..., errors='coerce')` of one cell: numbers are kept,
   * text is read as an integer or a decimal, anything else becomes null.
   */
  function ToNumeric(v: Value): (r: Value)
    ensures r.Missing? || Numeric(r).Some?
    ensures Numeric(v).Some? ==> r == v
    ensures v.VStr? && ParseInt(v.s).Some? ==> r == VInt(ParseInt(v.s).value)
    ensures v.VStr? ==> (r.Missing? <==> ParseInt(v.s).None? && ParseDecimal(v.s).None?)
    ensures v.Missing? ==> r.Missing?
  {
    match v
    case VStr(s) =>
      (match ParseInt(s)
       case Some(i) => VInt(i)
       case None =>
         match ParseDecimal(s)
         case Some(x) => VNum(x)
         case None => Missing)
    case VTime(t) => VInt(t * 1000000000)
    case _ => v
  }

  /** `.str.upper()` of one cell: a non-text cell becomes null. */
  function StrUpper(v: Value): (r: Value)
    ensures v.VStr? ==> r == VStr(Upper(v.s))
    ensures !v.VStr? ==> r.Missing?
  {
    if v.VStr? then VStr(Upper(v.s)) else Missing
  }

  predicate Positive(v: Value) {
    Numeric(v).Some? && Numeric(v).value > 0.0
  }

  // ---- category and currency normalisation ----

  /** `.str.strip().str.lower()` of a text. */
  function StripLower(s: string): (r: string)
    ensures IsStripped(r) && HasNoUpper(r)
  {
    LowerKeepsStripped(Strip(s));
    Lower(Strip(s))
  }

  /** `.str.strip().str.upper()` of a text. */
  function StripUpper(s: string): (r: string)
    ensures IsStripped(r) && HasNoLower(r)
  {
    UpperKeepsStripped(Strip(s));
    Upper(Strip(s))
  }

  /** The category counts as imputed when it is null or reads "unknown" once stripped and lower-cased. */
  predicate CategoryImputed(v: Value) {
    v.Missing? || (v.VStr? && StripLower(v.s) == "unknown")
  }

  const Uncategorized: string := "uncategorized"

  lemma UncategorizedIsClean()
    ensures IsStripped(Uncategorized) && HasNoUpper(Uncategorized) && Uncategorized != "unknown"
  {
    assert Uncategorized[0] == 'u' && Uncategorized[|Uncategorized| - 1] == 'd';
  }

  /** Null becomes "uncategorized", text is stripped and lower-cased, and "unknown" becomes "uncategorized". */
  function CleanCategory(v: Value): (r: Value)
    ensures v.Missing? ==> r == VStr(Uncategorized)
    ensures v.VStr? ==> r.VStr? && IsStripped(r.s) && HasNoUpper(r.s) && r.s != "unknown"
    ensures v.VStr? && !CategoryImputed(v) ==> r == VStr(StripLower(v.s))
    ensures CategoryImputed(v) ==> r == VStr(Uncategorized)
    ensures !v.VStr? && !v.Missing? ==> r.Missing?
  {
    var filled := if v.Missing? then VStr(Uncategorized) else v;
    UncategorizedIsClean();
    if filled.VStr? then
      var c := StripLower(filled.s);
      if c == "unknown" then VStr(Uncategorized) else VStr(c)
    else Missing
  }

  /** Null becomes "DKK"; text is stripped and upper-cased. */
  function ImputeCurrency(v: Value): (r: Value)
    ensures v.Missing? ==> r == VStr(StripUpper("DKK"))
    ensures v.VStr? ==> r == VStr(StripUpper(v.s))
    ensures r.VStr? ==> IsStripped(r.s) && HasNoLower(r.s)
    ensures !v.VStr? && !v.Missing? ==> r.Missing?
  {
    var filled := if v.Missing? then VStr("DKK") else v;
    if filled.VStr? then VStr(StripUpper(filled.s)) else Missing
  }

  /** The default currency is already in normal form. */
  lemma DefaultCurrencyIsNormal()
    ensures StripUpper("DKK") == "DKK"
  {
    var d := "DKK";
    assert IsStripped(d) by {
      assert d[0] == 'D' && d[2] == 'K';
    }
    StripStripped(d);
    assert HasNoLower(d);
    UpperFixed(d);
  }

  /** The transaction columns the cleaning steps write are distinct names. */
  lemma TransactionColumnsDistinct()
    ensures "customer_id" != "transaction_id"
    ensures "customer_id" != "timestamp"
    ensures "customer_id" != "amount"
    ensures "customer_id" != "currency"
    ensures "customer_id" != "category"
    ensures "customer_id" != "is_category_imputed"
    ensures "customer_id" != "is_currency_imputed"
    ensures "transaction_id" != "timestamp"
    ensures "transaction_id" != "amount"
    ensures "transaction_id" != "currency"
    ensures "transaction_id" != "category"
    ensures "transaction_id" != "is_category_imputed"
    ensures "transaction_id" != "is_currency_imputed"
    ensures "timestamp" != "amount"
    ensures "timestamp" != "currency"
    ensures "timestamp" != "category"
    ensures "timestamp" != "is_category_imputed"
    ensures "timestamp" != "is_currency_imputed"
    ensures "amount" != "currency"
    ensures "amount" != "category"
    ensures "amount" != "is_category_imputed"
    ensures "amount" != "is_currency_imputed"
    ensures "currency" != "category"
    ensures "currency" != "is_category_imputed"
    ensures "currency" != "is_currency_imputed"
    ensures "category" != "is_category_imputed"
    ensures "category" != "is_currency_imputed"
    ensures "is_category_imputed" != "is_currency_imputed"
  {
  }

  /** The row after `_handle_category_cleaning`: the flag column first, then the cleaned category. */
  function CategoryRow(row: Row): (r: Row)
    ensures Cell(r, "is_category_imputed") == VBool(CategoryImputed(Cell(row, "category")))
    ensures Cell(r, "category") == CleanCategory(Cell(row, "category"))
    ensures forall c :: c != "category" && c != "is_category_imputed" ==> Cell(r, c) == Cell(row, c)
  {
    var flagged := row["is_category_imputed" := VBool(CategoryImputed(Cell(row, "category")))];
    flagged["category" := CleanCategory(Cell(flagged, "category"))]
  }

  /** The row after `_handle_currency_imputation`: the flag column first, then the filled currency. */
  function CurrencyRow(row: Row): (r: Row)
    ensures Cell(r, "is_currency_imputed") == VBool(Cell(row, "currency").Missing?)
    ensures Cell(r, "currency") == ImputeCurrency(Cell(row, "currency"))
    ensures forall c :: c != "currency" && c != "is_currency_imputed" ==> Cell(r, c) == Cell(row, c)
  {
    var flagged := row["is_currency_imputed" := VBool(Cell(row, "currency").Missing?)];
    flagged["currency" := ImputeCurrency(Cell(flagged, "currency"))]
  }

  /** `_handle_category_cleaning(df)`: the row rewrite above on every row, nothing dropped or reordered. */
  function HandleCategoryCleaning(df: seq<Row>): (r: seq<Row>)
    ensures |r| == |df|
    ensures forall i :: 0 <= i < |df| ==>
      Cell(r[i], "is_category_imputed") == VBool(CategoryImputed(Cell(df[i], "category")))
    ensures forall i :: 0 <= i < |df| && (Cell(df[i], "category").VStr? || Cell(df[i], "category").Missing?) ==>
      var c := Cell(r[i], "category"); c.VStr? && IsStripped(c.s) && HasNoUpper(c.s) && c.s != "unknown"
  {
    CategoryRowsClean(df);
    Seqs.Map(df, CategoryRow)
  }

  lemma CategoryRowsClean(df: seq<Row>)
    ensures forall i :: 0 <= i < |df| && (Cell(df[i], "category").VStr? || Cell(df[i], "category").Missing?) ==>
      var c := Cell(Seqs.Map(df, CategoryRow)[i], "category"); c.VStr? && IsStripped(c.s) && HasNoUpper(c.s) && c.s != "unknown"
  {
    forall i | 0 <= i < |df| && (Cell(df[i], "category").VStr? || Cell(df[i], "category").Missing?)
      ensures var c := Cell(Seqs.Map(df, CategoryRow)[i], "category"); c.VStr? && IsStripped(c.s) && HasNoUpper(c.s) && c.s != "unknown"
    {
      assert Seqs.Map(df, CategoryRow)[i] == CategoryRow(df[i]);
    }
  }

  /** `_handle_currency_imputation(df)`: every currency filled and normalised, flagged where it was null. */
  function HandleCurrencyImputation(df: seq<Row>): (r: seq<Row>)
    ensures |r| == |df|
    ensures forall i :: 0 <= i < |df| ==>
      Cell(r[i], "is_currency_imputed") == VBool(Cell(df[i], "currency").Missing?)
    ensures forall i :: 0 <= i < |df| && Cell(df[i], "currency").Missing? ==> Cell(r[i], "currency") == VStr("DKK")
    ensures forall i :: 0 <= i < |df| && Cell(df[i], "currency").VStr? ==>
      Cell(r[i], "currency") == VStr(StripUpper(Cell(df[i], "currency").s))
    ensures forall i :: 0 <= i < |df| && (Cell(df[i], "currency").VStr? || Cell(df[i], "currency").Missing?) ==>
      var c := Cell(r[i], "currency"); c.VStr? && IsStripped(c.s) && HasNoLower(c.s)
  {
    CurrencyRowsClean(df);
    Seqs.Map(df, CurrencyRow)
  }

  lemma CurrencyRowsClean(df: seq<Row>)
    ensures forall i :: 0 <= i < |df| ==>
      Cell(Seqs.Map(df, CurrencyRow)[i], "is_currency_imputed") == VBool(Cell(df[i], "currency").Missing?)
    ensures forall i :: 0 <= i < |df| && Cell(df[i], "currency").Missing? ==>
      Cell(Seqs.Map(df, CurrencyRow)[i], "currency") == VStr("DKK")
    ensures forall i :: 0 <= i < |df| && Cell(df[i], "currency").VStr? ==>
      Cell(Seqs.Map(df, CurrencyRow)[i], "currency") == VStr(StripUpper(Cell(df[i], "currency").s))
    ensures forall i :: 0 <= i < |df| && (Cell(df[i], "currency").VStr? || Cell(df[i], "currency").Missing?) ==>
      var c := Cell(Seqs.Map(df, CurrencyRow)[i], "currency"); c.VStr? && IsStripped(c.s) && HasNoLower(c.s)
  {
    DefaultCurrencyIsNormal();
    var r := Seqs.Map(df, CurrencyRow);
    forall i | 0 <= i < |df|
      ensures Cell(r[i], "is_currency_imputed") == VBool(Cell(df[i], "currency").Missing?)
      ensures Cell(df[i], "currency").Missing? ==> Cell(r[i], "currency") == VStr("DKK")
      ensures Cell(df[i], "currency").VStr? ==> Cell(r[i], "currency") == VStr(StripUpper(Cell(df[i], "currency").s))
      ensures Cell(df[i], "currency").VStr? || Cell(df[i], "currency").Missing? ==>
        var c := Cell(r[i], "currency"); c.VStr? && IsStripped(c.s) && HasNoLower(c.s)
    {
      assert r[i] == CurrencyRow(df[i]);
    }
  }


  // ---- whole-column cast ----

  /** The message of the first cell of `column` that cannot be cast, if any. */
  function FirstCastError(df: seq<Row>, column: string): (r: Option<string>)
    ensures r.None? <==> forall row :: row in df ==> Castable(Cell(row, column))
  {
    if df == [] then None
    else
      assert forall x :: x in df <==> x == df[0] || x in df[1..];
      match CastInt64(Cell(df[0], column))
      case Err(e) => Some(e)
      case Ok(_) => FirstCastError(df[1..], column)
  }

  /** `df[column] = df[column].astype('Int64')`: all or nothing. */
  function CastColumn(df: seq<Row>, column: string): (r: Result<seq<Row>>)
    ensures r.Ok? <==> forall row :: row in df ==> Castable(Cell(row, column))
    ensures r.Ok? ==> |r.value| == |df|
    ensures r.Ok? ==> forall i :: 0 <= i < |df| ==> r.value[i] == df[i][column := CastValue(Cell(df[i], column))]
  {
    match FirstCastError(df, column)
    case Some(e) => Err(e)
    case None => Ok(AssignColumn(df, column, (row: Row) => CastValue(Cell(row, column))))
  }

  // ---- the transaction pipeline, row by row ----

  /** The raw row's identifiers after both casts. */
  function CastIds(y: Row): (r: Row)
    ensures Cell(r, "customer_id") == CastValue(Cell(y, "customer_id"))
    ensures Cell(r, "transaction_id") == CastValue(Cell(y, "transaction_id"))
    ensures forall c :: c != "customer_id" && c != "transaction_id" ==> Cell(r, c) == Cell(y, c)
  {
    assert "customer_id"[0] != "transaction_id"[0];
    var a := y["customer_id" := CastValue(Cell(y, "customer_id"))];
    a["transaction_id" := CastValue(Cell(a, "transaction_id"))]
  }

  function Timed(y: Row, parseTime: Value -> Option<int>): (r: Row)
    ensures Cell(r, "timestamp") == ToDatetime(Cell(y, "timestamp"), parseTime)
    ensures forall c :: c != "timestamp" ==> Cell(r, c) == Cell(CastIds(y), c)
  {
    var a := CastIds(y);
    a["timestamp" := ToDatetime(Cell(a, "timestamp"), parseTime)]
  }

  /** The raw row after the type conversions of step 3. */
  function Converted(y: Row, parseTime: Value -> Option<int>): (r: Row)
    ensures Cell(r, "amount") == ToNumeric(Cell(y, "amount"))
    ensures forall c :: c != "amount" ==> Cell(r, c) == Cell(Timed(y, parseTime), c)
  {
    var a := Timed(y, parseTime);
    a["amount" := ToNumeric(Cell(a, "amount"))]
  }

  function Uppercased(y: Row, parseTime: Value -> Option<int>): (r: Row)
    ensures Cell(r, "currency") == StrUpper(Cell(y, "currency"))
    ensures forall c :: c != "currency" ==> Cell(r, c) == Cell(Converted(y, parseTime), c)
  {
    var a := Converted(y, parseTime);
    a["currency" := StrUpper(Cell(a, "currency"))]
  }

  /** The raw row once its category is cleaned (step 6, first half). */
  function Categorized(y: Row, parseTime: Value -> Option<int>): Row {
    CategoryRow(Uppercased(y, parseTime))
  }

  /** What a raw row that survives every filter looks like in the output. */
  function CleanRow(y: Row, parseTime: Value -> Option<int>): (r: Row)
    ensures Cell(r, "currency") == ImputeCurrency(StrUpper(Cell(y, "currency")))
    ensures Cell(r, "is_currency_imputed") == VBool(StrUpper(Cell(y, "currency")).Missing?)
    ensures forall c :: c != "currency" && c != "is_currency_imputed" ==> Cell(r, c) == Cell(Categorized(y, parseTime), c)
  {
    CurrencyRow(Categorized(y, parseTime))
  }

  predicate HasCustomer(y: Row) {
    Cell(y, "customer_id") != Missing
  }

  predicate ParsedOk(y: Row, parseTime: Value -> Option<int>) {
    HasCustomer(y) && Present(Converted(y, parseTime), ["timestamp", "amount"])
  }

  /** The raw row survives every filter: it has a customer, a readable timestamp and a positive amount. */
  predicate Kept(y: Row, parseTime: Value -> Option<int>) {
    ParsedOk(y, parseTime) && Positive(Cell(Uppercased(y, parseTime), "amount"))
  }

  /** The raw row has a customer id and one of its identifiers cannot become an integer. */
  predicate CastFails(y: Row) {
    HasCustomer(y) && (!Castable(Cell(y, "customer_id")) || !Castable(Cell(y, "transaction_id")))
  }

  /** The order of the final sort: by customer id, then by timestamp. */
  function IntKey(v: Value): int {
    match v
    case VInt(i) => i
    case VTime(t) => t
    case _ => 0
  }

  function TxBefore(): (Row, Row) -> bool {
    (a: Row, b: Row) =>
      IntKey(Cell(a, "customer_id")) < IntKey(Cell(b, "customer_id"))
      || (IntKey(Cell(a, "customer_id")) == IntKey(Cell(b, "customer_id"))
          && IntKey(Cell(a, "timestamp")) <= IntKey(Cell(b, "timestamp")))
  }

  lemma TxBeforeIsPreorder()
    ensures Seqs.Total(TxBefore()) && Seqs.Transitive(TxBefore())
  {
  }

  /** The sort keys and the amount of a cleaned transaction. */
  predicate KeysClean(x: Row) {
    Cell(x, "customer_id").VInt? && Cell(x, "timestamp").VTime? && Positive(Cell(x, "amount"))
  }

  /** The normalised labels of a cleaned transaction, with both imputation flags set. */
  predicate LabelsClean(x: Row) {
    && Cell(x, "currency").VStr? && IsStripped(Cell(x, "currency").s) && HasNoLower(Cell(x, "currency").s)
    && (Cell(x, "category").VStr? ==>
          IsStripped(Cell(x, "category").s) && HasNoUpper(Cell(x, "category").s) && Cell(x, "category").s != "unknown")
    && Cell(x, "is_category_imputed").VBool?
    && Cell(x, "is_currency_imputed").VBool?
  }

  /** A cleaned transaction: every column the later stages rely on is present and normalised. */
  predicate CleanTransaction(x: Row) {
    KeysClean(x) && LabelsClean(x)
  }

  lemma CleanRowKeys(y: Row, parseTime: Value -> Option<int>)
    requires Kept(y, parseTime) && !CastFails(y)
    ensures KeysClean(CleanRow(y, parseTime))
  {
    TransactionColumnsDistinct();
    var u := Uppercased(y, parseTime);
    var x := CleanRow(y, parseTime);
    assert Cell(x, "customer_id") == Cell(u, "customer_id") == CastValue(Cell(y, "customer_id"));
    assert Cell(x, "timestamp") == Cell(u, "timestamp") == Cell(Converted(y, parseTime), "timestamp");
    assert Cell(x, "amount") == Cell(u, "amount");
  }

  /** The category of a cleaned row is the raw category normalised; text or null becomes text. */
  lemma CleanRowCategory(y: Row, parseTime: Value -> Option<int>)
    ensures Cell(CleanRow(y, parseTime), "category") == CleanCategory(Cell(y, "category"))
    ensures Cell(CleanRow(y, parseTime), "is_category_imputed") == VBool(CategoryImputed(Cell(y, "category")))
  {
    UppercasedCategory(y, parseTime);
  }

  /** The conversion steps before category cleaning leave the category alone. */
  lemma UppercasedCategory(y: Row, parseTime: Value -> Option<int>)
    ensures Cell(Uppercased(y, parseTime), "category") == Cell(y, "category")
  {
    TransactionColumnsDistinct();
    assert Cell(Uppercased(y, parseTime), "category") == Cell(Converted(y, parseTime), "category");
    assert Cell(Converted(y, parseTime), "category") == Cell(Timed(y, parseTime), "category");
    assert Cell(Timed(y, parseTime), "category") == Cell(CastIds(y), "category");
  }

  lemma CleanRowLabels(y: Row, parseTime: Value -> Option<int>)
    ensures LabelsClean(CleanRow(y, parseTime))
  {
    CleanRowCategory(y, parseTime);
    UncategorizedIsClean();
  }

  /** A surviving raw row whose identifiers cast comes out clean. */
  lemma CleanRowIsClean(y: Row, parseTime: Value -> Option<int>)
    requires Kept(y, parseTime) && !CastFails(y)
    ensures CleanTransaction(CleanRow(y, parseTime))
  {
    CleanRowKeys(y, parseTime);
    CleanRowLabels(y, parseTime);
  }

  // ---- tracking rows through the pipeline ----

  /**
   * The table a pipeline stage holds: one row per distinct raw row that
   * `keep` admits, in first-occurrence order, each rewritten by `stage`.
   */
  function Staged(raw: seq<Row>, keep: Row -> bool, stage: Row -> Row): (r: seq<Row>)
    ensures |r| <= |Seqs.Distinct(raw)|
  {
    Seqs.Map(Seqs.Filter(Seqs.Distinct(raw), keep), stage)
  }

  /** `df` is exactly what the stage `keep`/`stage` makes of `raw`, row for row. */
  ghost predicate Tracks(df: seq<Row>, raw: seq<Row>, keep: Row -> bool, stage: Row -> Row) {
    df == Staged(raw, keep, stage)
  }

  /** The rows of a stage are the images of the admitted raw rows, and all of them occur. */
  lemma StagedMembers(raw: seq<Row>, keep: Row -> bool, stage: Row -> Row)
    ensures forall x :: x in Staged(raw, keep, stage) ==> exists y :: y in raw && keep(y) && x == stage(y)
    ensures forall y :: y in raw && keep(y) ==> stage(y) in Staged(raw, keep, stage)
  {
    var s := Seqs.Filter(Seqs.Distinct(raw), keep);
    var r := Staged(raw, keep, stage);
    forall x | x in r ensures exists y :: y in raw && keep(y) && x == stage(y) {
      var i :| 0 <= i < |r| && r[i] == x;
      assert s[i] in s;
    }
    forall y | y in raw && keep(y) ensures stage(y) in r {
      assert y in s;
      var i :| 0 <= i < |s| && s[i] == y;
      assert r[i] == stage(y);
    }
  }

  lemma TracksStart(raw: seq<Row>, keep: Row -> bool, stage: Row -> Row)
    requires forall y :: keep(y) && stage(y) == y
    ensures Tracks(Seqs.Distinct(raw), raw, keep, stage)
  {
    var d := Seqs.Distinct(raw);
    Seqs.FilterAll(d, keep);
    assert Seqs.Map(d, stage) == d;
  }

  /** A selection step: the admitted raw rows narrow to those whose current row passes. */
  lemma TracksFilter(df: seq<Row>, df2: seq<Row>, raw: seq<Row>, keep: Row -> bool, stage: Row -> Row, p: Row -> bool, keep2: Row -> bool)
    requires Tracks(df, raw, keep, stage)
    requires df2 == Seqs.Filter(df, p)
    requires forall y :: y in raw ==> (keep2(y) <==> keep(y) && p(stage(y)))
    ensures Tracks(df2, raw, keep2, stage)
  {
    var d := Seqs.Distinct(raw);
    var s := Seqs.Filter(d, keep);
    var passes := (y: Row) => p(stage(y));
    Seqs.FilterMap(s, stage, p, passes);
    Seqs.FilterFilter(d, keep, passes, keep2);
  }

  /** A rewrite step: every current row is replaced by `g` of itself. */
  lemma TracksMap(df: seq<Row>, df2: seq<Row>, raw: seq<Row>, keep: Row -> bool, stage: Row -> Row, g: Row -> Row, stage2: Row -> Row)
    requires Tracks(df, raw, keep, stage)
    requires |df2| == |df| && forall i :: 0 <= i < |df| ==> df2[i] == g(df[i])
    requires forall y :: y in raw && keep(y) ==> stage2(y) == g(stage(y))
    ensures Tracks(df2, raw, keep, stage2)
  {
    var s := Seqs.Filter(Seqs.Distinct(raw), keep);
    var r := Staged(raw, keep, stage2);
    forall i | 0 <= i < |df2| ensures df2[i] == r[i] {
      assert s[i] in s;
    }
  }

  // ---- which raw rows are admitted, and what they look like, after each step ----

  function KeepAll(): Row -> bool {
    (y: Row) => true
  }

  function KeepWithCustomer(): Row -> bool {
    (y: Row) => HasCustomer(y)
  }

  function KeepParsed(parseTime: Value -> Option<int>): Row -> bool {
    (y: Row) => ParsedOk(y, parseTime)
  }

  function KeepKept(parseTime: Value -> Option<int>): Row -> bool {
    (y: Row) => Kept(y, parseTime)
  }

  function AsRead(): Row -> Row {
    (y: Row) => y
  }

  function TimedStage(parseTime: Value -> Option<int>): Row -> Row {
    (y: Row) => Timed(y, parseTime)
  }

  function ConvertedStage(parseTime: Value -> Option<int>): Row -> Row {
    (y: Row) => Converted(y, parseTime)
  }

  function UppercasedStage(parseTime: Value -> Option<int>): Row -> Row {
    (y: Row) => Uppercased(y, parseTime)
  }

  function CategorizedStage(parseTime: Value -> Option<int>): Row -> Row {
    (y: Row) => Categorized(y, parseTime)
  }

  function CleanStage(parseTime: Value -> Option<int>): Row -> Row {
    (y: Row) => CleanRow(y, parseTime)
  }

  /** Both identifier cells of the row can become nullable integers. */
  predicate IdsCastable(x: Row) {
    Castable(Cell(x, "customer_id")) && Castable(Cell(x, "transaction_id"))
  }

  /** Steps 1 and 2 of `transform_transactions`: exact duplicates and rows without a customer go. */
  method DropUnusable(raw: seq<Row>) returns (df: seq<Row>)
    ensures df == Seqs.Filter(Seqs.Distinct(raw), KeepWithCustomer())
    ensures Tracks(df, raw, KeepWithCustomer(), AsRead())
  {
    // 1. exact duplicates
    df := Seqs.Distinct(raw);
    TracksStart(raw, KeepAll(), AsRead());

    // 2. rows without a customer
    var prev := df;
    df := DropMissing(df, ["customer_id"]);
    CustomerMask();
    TracksFilter(prev, df, raw, KeepAll(), AsRead(), PresentIn(["customer_id"]), KeepWithCustomer());
    Seqs.FilterSameMask(prev, PresentIn(["customer_id"]), KeepWithCustomer());
  }

  /** `dropna(subset=['customer_id'])` keeps a row exactly when it has a customer. */
  lemma CustomerMask()
    ensures forall y :: KeepWithCustomer()(y) <==> KeepAll()(y) && PresentIn(["customer_id"])(AsRead()(y))
    ensures forall y :: PresentIn(["customer_id"])(y) == KeepWithCustomer()(y)
  {
    forall y ensures PresentIn(["customer_id"])(y) <==> HasCustomer(y) {
      assert "customer_id" in ["customer_id"];
    }
  }

  /** The identifier casts of step 3: both columns become nullable integers, or the first failure is raised. */
  method CastIdentifiers(df: seq<Row>) returns (r: Result<seq<Row>>)
    ensures r.Err? <==> exists x :: x in df && !IdsCastable(x)
    ensures r.Ok? ==> |r.value| == |df| && forall i :: 0 <= i < |df| ==> r.value[i] == CastIds(df[i])
  {
    var cast := CastColumn(df, "customer_id");
    if cast.Err? {
      return Err(cast.error);
    }
    var mid := cast.value;
    cast := CastColumn(mid, "transaction_id");
    if cast.Err? {
      ghost var x :| x in mid && !Castable(Cell(x, "transaction_id"));
      ghost var i :| 0 <= i < |mid| && mid[i] == x;
      assert Cell(x, "transaction_id") == Cell(df[i], "transaction_id");
      assert df[i] in df && !IdsCastable(df[i]);
      return Err(cast.error);
    }
    forall x | x in df ensures IdsCastable(x) {
      var i :| 0 <= i < |df| && df[i] == x;
      assert mid[i] in mid;
      assert Cell(mid[i], "transaction_id") == Cell(x, "transaction_id");
    }
    r := Ok(cast.value);
  }

  /** Over the rows left after step 2, an uncastable identifier is exactly a cast failure of some raw row. */
  lemma CastFailureTracked(df: seq<Row>, raw: seq<Row>)
    requires Tracks(df, raw, KeepWithCustomer(), AsRead())
    ensures (exists x :: x in df && !IdsCastable(x)) <==> exists y :: y in raw && CastFails(y)
  {
    StagedMembers(raw, KeepWithCustomer(), AsRead());
    if x :| x in df && !IdsCastable(x) {
      var y :| y in raw && KeepWithCustomer()(y) && x == AsRead()(y);
      assert CastFails(y);
    }
    if y :| y in raw && CastFails(y) {
      assert KeepWithCustomer()(y);
      assert AsRead()(y) in df;
    }
  }

  /**
   * The rest of step 3 and steps 4 and 5: timestamps and amounts parsed,
   * unreadable ones dropped, currency upper-cased, non-positive amounts dropped.
   */
  method ConvertAndFilter(df: seq<Row>, ghost raw: seq<Row>, parseTime: Value -> Option<int>) returns (r: seq<Row>)
    requires Tracks(df, raw, KeepWithCustomer(), CastIds)
    ensures |r| <= |df|
    ensures Tracks(r, raw, KeepKept(parseTime), UppercasedStage(parseTime))
  {
    r := AssignColumn(df, "timestamp", (x: Row) => ToDatetime(Cell(x, "timestamp"), parseTime));
    TracksMap(df, r, raw, KeepWithCustomer(), CastIds,
      (x: Row) => x["timestamp" := ToDatetime(Cell(x, "timestamp"), parseTime)], TimedStage(parseTime));

    var prev := r;
    r := AssignColumn(r, "amount", (x: Row) => ToNumeric(Cell(x, "amount")));
    TracksMap(prev, r, raw, KeepWithCustomer(), TimedStage(parseTime),
      (x: Row) => x["amount" := ToNumeric(Cell(x, "amount"))], ConvertedStage(parseTime));

    prev := r;
    r := DropMissing(r, ["timestamp", "amount"]);
    TracksFilter(prev, r, raw, KeepWithCustomer(), ConvertedStage(parseTime),
      PresentIn(["timestamp", "amount"]), KeepParsed(parseTime));

    // 4. currency codes upper-cased
    prev := r;
    r := AssignColumn(r, "currency", (x: Row) => StrUpper(Cell(x, "currency")));
    TracksMap(prev, r, raw, KeepParsed(parseTime), ConvertedStage(parseTime),
      (x: Row) => x["currency" := StrUpper(Cell(x, "currency"))], UppercasedStage(parseTime));

    // 5. non-positive amounts
    prev := r;
    var positive := (x: Row) => Positive(Cell(x, "amount"));
    r := Seqs.Filter(r, positive);
    TracksFilter(prev, r, raw, KeepParsed(parseTime), UppercasedStage(parseTime), positive, KeepKept(parseTime));
  }

  /** The category step keeps the tracked rows, each with its category cleaned. */
  lemma TracksCategory(df: seq<Row>, r: seq<Row>, raw: seq<Row>, parseTime: Value -> Option<int>)
    requires Tracks(df, raw, KeepKept(parseTime), UppercasedStage(parseTime))
    requires r == Seqs.Map(df, CategoryRow)
    ensures Tracks(r, raw, KeepKept(parseTime), CategorizedStage(parseTime))
  {
    CategorizedStageComposes(parseTime);
    TracksMap(df, r, raw, KeepKept(parseTime), UppercasedStage(parseTime), CategoryRow, CategorizedStage(parseTime));
  }

  /** The currency step keeps the tracked rows, each with its currency filled. */
  lemma TracksCurrency(df: seq<Row>, r: seq<Row>, raw: seq<Row>, parseTime: Value -> Option<int>)
    requires Tracks(df, raw, KeepKept(parseTime), CategorizedStage(parseTime))
    requires r == Seqs.Map(df, CurrencyRow)
    ensures Tracks(r, raw, KeepKept(parseTime), CleanStage(parseTime))
  {
    CleanStageComposes(parseTime);
    TracksMap(df, r, raw, KeepKept(parseTime), CategorizedStage(parseTime), CurrencyRow, CleanStage(parseTime));
  }

  lemma CategorizedStageComposes(parseTime: Value -> Option<int>)
    ensures forall y :: CategorizedStage(parseTime)(y) == CategoryRow(UppercasedStage(parseTime)(y))
  {
  }

  lemma CleanStageComposes(parseTime: Value -> Option<int>)
    ensures forall y :: CleanStage(parseTime)(y) == CurrencyRow(CategorizedStage(parseTime)(y))
  {
  }

  /** Step 6 on one row: category cleaned, then currency imputed. */
  function Normalise(x: Row): Row {
    CurrencyRow(CategoryRow(x))
  }

  /** Steps 6 and 7: category and currency normalised, then a stable sort by customer and time. */
  method NormaliseAndSort(df: seq<Row>, ghost raw: seq<Row>, parseTime: Value -> Option<int>) returns (r: seq<Row>)
    requires Tracks(df, raw, KeepKept(parseTime), UppercasedStage(parseTime))
    ensures Seqs.Sorted(r, TxBefore())
    ensures multiset(r) == multiset(Seqs.Map(df, Normalise))
    ensures multiset(r) == multiset(Staged(raw, KeepKept(parseTime), CleanStage(parseTime)))
  {
    r := HandleCategoryCleaning(df);
    assert r == Seqs.Map(df, CategoryRow);
    TracksCategory(df, r, raw, parseTime);

    var prev := r;
    r := HandleCurrencyImputation(r);
    assert r == Seqs.Map(prev, CurrencyRow);
    TracksCurrency(prev, r, raw, parseTime);
    assert r == Seqs.Map(df, Normalise);

    TxBeforeIsPreorder();
    r := Seqs.Sort(r, TxBefore());
  }

  /** Every row the pipeline keeps is clean. */
  lemma TrackedRowsClean(df: seq<Row>, raw: seq<Row>, parseTime: Value -> Option<int>)
    requires Tracks(df, raw, KeepKept(parseTime), CleanStage(parseTime))
    requires forall y :: y in raw ==> !CastFails(y)
    ensures forall x :: x in df ==> CleanTransaction(x)
  {
    StagedMembers(raw, KeepKept(parseTime), CleanStage(parseTime));
    forall x | x in df ensures CleanTransaction(x) {
      var y :| y in raw && KeepKept(parseTime)(y) && x == CleanStage(parseTime)(y);
      CleanRowIsClean(y, parseTime);
    }
  }

  /** Any ordering of the final stage holds clean rows, at most one per distinct raw row. */
  lemma PipelineOutput(df: seq<Row>, raw: seq<Row>, parseTime: Value -> Option<int>)
    requires multiset(df) == multiset(Staged(raw, KeepKept(parseTime), CleanStage(parseTime)))
    requires forall y :: y in raw ==> !CastFails(y)
    ensures |df| <= |Seqs.Distinct(raw)|
    ensures forall x :: x in df ==> CleanTransaction(x)
  {
    var spec := Staged(raw, KeepKept(parseTime), CleanStage(parseTime));
    assert |df| == |multiset(df)| == |multiset(spec)| == |spec|;
    Seqs.PermutationMembers(df, spec);
    TrackedRowsClean(spec, raw, parseTime);
  }

  /** Any ordering of the final stage holds exactly the cleaned images of the kept raw rows. */
  lemma PipelineRows(df: seq<Row>, raw: seq<Row>, parseTime: Value -> Option<int>)
    requires multiset(df) == multiset(Staged(raw, KeepKept(parseTime), CleanStage(parseTime)))
    ensures forall x :: x in df ==> exists y :: y in raw && Kept(y, parseTime) && x == CleanRow(y, parseTime)
    ensures forall y :: y in raw && Kept(y, parseTime) ==> CleanRow(y, parseTime) in df
  {
    var spec := Staged(raw, KeepKept(parseTime), CleanStage(parseTime));
    CleanStagedMembers(raw, parseTime);
    forall x | x in df ensures x in spec {
      assert x in multiset(df);
    }
    forall y | y in raw && Kept(y, parseTime) ensures CleanRow(y, parseTime) in df {
      assert CleanRow(y, parseTime) in multiset(spec);
    }
  }

  /** The final stage holds the cleaned images of the kept raw rows and nothing else. */
  lemma CleanStagedMembers(raw: seq<Row>, parseTime: Value -> Option<int>)
    ensures var spec := Staged(raw, KeepKept(parseTime), CleanStage(parseTime));
      forall x :: x in spec ==> exists y :: y in raw && Kept(y, parseTime) && x == CleanRow(y, parseTime)
    ensures forall y :: y in raw && Kept(y, parseTime) ==> CleanRow(y, parseTime) in Staged(raw, KeepKept(parseTime), CleanStage(parseTime))
  {
    var spec := Staged(raw, KeepKept(parseTime), CleanStage(parseTime));
    StagedMembers(raw, KeepKept(parseTime), CleanStage(parseTime));
    forall x | x in spec ensures exists y :: y in raw && Kept(y, parseTime) && x == CleanRow(y, parseTime) {
      var y :| y in raw && KeepKept(parseTime)(y) && x == CleanStage(parseTime)(y);
      assert Kept(y, parseTime) && x == CleanRow(y, parseTime);
    }
    forall y | y in raw && Kept(y, parseTime) ensures CleanRow(y, parseTime) in spec {
      assert KeepKept(parseTime)(y);
      assert CleanStage(parseTime)(y) in spec;
    }
  }

  /**
   * `transform_transactions(transactions_df)`. Fails only when an identifier
   * cannot become an integer; otherwise returns, sorted by customer and time,
   * one cleaned row for each distinct raw row that passes all filters (two
   * distinct raw rows that clean to the same row give two copies of it).
   */
  method TransformTransactions(raw: seq<Row>, parseTime: Value -> Option<int>) returns (r: Result<seq<Row>>)
    ensures r.Err? <==> exists y :: y in raw && CastFails(y)
    ensures r.Ok? ==> multiset(r.value) == multiset(Staged(raw, KeepKept(parseTime), CleanStage(parseTime)))
    ensures r.Ok? ==> |r.value| <= |Seqs.Distinct(raw)|
    ensures r.Ok? ==> Seqs.Sorted(r.value, TxBefore())
    ensures r.Ok? ==> forall x :: x in r.value ==> CleanTransaction(x)
    ensures r.Ok? ==> forall x :: x in r.value ==> exists y :: y in raw && Kept(y, parseTime) && x == CleanRow(y, parseTime)
    ensures r.Ok? ==> forall y :: y in raw && Kept(y, parseTime) ==> CleanRow(y, parseTime) in r.value
  {
    var df := DropUnusable(raw);
    CastFailureTracked(df, raw);
    var cast := CastIdentifiers(df);
    if cast.Err? {
      return Err(cast.error);
    }
    TracksMap(df, cast.value, raw, KeepWithCustomer(), AsRead(), CastIds, CastIds);
    df := ConvertAndFilter(cast.value, raw, parseTime);
    df := NormaliseAndSort(df, raw, parseTime);
    PipelineOutput(df, raw, parseTime);
    PipelineRows(df, raw, parseTime);
    r := Ok(df);
  }

  // ---- customers ----

  /** The customer columns the cleaning step writes are distinct names. */
  lemma CustomerColumnsDistinct()
    ensures "signup_date" != "customer_id" && "signup_date" != "country" && "customer_id" != "country"
  {
  }

  /** A raw customer row after the three column rewrites of `transform_customers`. */
  function CleanCustomer(y: Row, parseTime: Value -> Option<int>): (r: Row)
    ensures Cell(r, "signup_date") == ToDatetime(Cell(y, "signup_date"), parseTime)
    ensures Cell(r, "customer_id") == CastValue(Cell(y, "customer_id"))
    ensures Cell(r, "country") == StrUpper(Cell(y, "country"))
    ensures forall c :: c != "signup_date" && c != "customer_id" && c != "country" ==> Cell(r, c) == Cell(y, c)
  {
    CustomerColumnsDistinct();
    var a := y["signup_date" := ToDatetime(Cell(y, "signup_date"), parseTime)];
    var b := a["customer_id" := CastValue(Cell(a, "customer_id"))];
    b["country" := StrUpper(Cell(b, "country"))]
  }

  function CustomerStage(parseTime: Value -> Option<int>): Row -> Row {
    (y: Row) => CleanCustomer(y, parseTime)
  }

  function SignupParsed(parseTime: Value -> Option<int>): Row -> Value {
    (x: Row) => ToDatetime(Cell(x, "signup_date"), parseTime)
  }

  /** Parsing the signup dates leaves the ids as they were, so the cast fails on the same rows. */
  lemma SignupKeepsIds(raw: seq<Row>, df: seq<Row>, parseTime: Value -> Option<int>)
    requires df == AssignColumn(raw, "signup_date", SignupParsed(parseTime))
    ensures (forall x :: x in df ==> Castable(Cell(x, "customer_id"))) <==>
            (forall y :: y in raw ==> Castable(Cell(y, "customer_id")))
  {
    CustomerColumnsDistinct();
    assert forall i :: 0 <= i < |df| ==> Cell(df[i], "customer_id") == Cell(raw[i], "customer_id");
    if forall x :: x in df ==> Castable(Cell(x, "customer_id")) {
      forall y | y in raw ensures Castable(Cell(y, "customer_id")) {
        var i :| 0 <= i < |raw| && raw[i] == y;
        assert df[i] in df;
      }
    }
    if forall y :: y in raw ==> Castable(Cell(y, "customer_id")) {
      forall x | x in df ensures Castable(Cell(x, "customer_id")) {
        var i :| 0 <= i < |df| && df[i] == x;
        assert raw[i] in raw;
      }
    }
  }

  /**
   * `transform_customers(customers_df)`: fails only when some customer id
   * cannot become an integer; otherwise every raw row with an id, in order,
   * rewritten by `CleanCustomer`.
   */
  method TransformCustomers(raw: seq<Row>, parseTime: Value -> Option<int>) returns (r: Result<seq<Row>>)
    ensures r.Err? <==> exists y :: y in raw && !Castable(Cell(y, "customer_id"))
    ensures r.Ok? ==> r.value == Seqs.Map(Seqs.Filter(raw, HasCustomer), CustomerStage(parseTime))
  {
    CustomerColumnsDistinct();
    var df := AssignColumn(raw, "signup_date", SignupParsed(parseTime));
    SignupKeepsIds(raw, df, parseTime);
    var cast := CastColumn(df, "customer_id");
    if cast.Err? {
      return Err(cast.error);
    }
    df := cast.value;
    df := AssignColumn(df, "country", (x: Row) => StrUpper(Cell(x, "country")));
    assert df == Seqs.Map(raw, CustomerStage(parseTime));
    forall i | 0 <= i < |raw| ensures HasCustomer(raw[i]) == PresentIn(["customer_id"])(CustomerStage(parseTime)(raw[i])) {
      assert raw[i] in raw;
    }
    Seqs.FilterMap(raw, CustomerStage(parseTime), PresentIn(["customer_id"]), HasCustomer);
    df := DropMissing(df, ["customer_id"]);
    r := Ok(df);
  }

  /** Every customer row returned has an integer id, a parsed or null signup date and an upper-case or null country. */
  lemma CustomersClean(raw: seq<Row>, parseTime: Value -> Option<int>)
    requires forall y :: y in raw ==> Castable(Cell(y, "customer_id"))
    ensures forall x :: x in Seqs.Map(Seqs.Filter(raw, HasCustomer), CustomerStage(parseTime)) ==>
      && Cell(x, "customer_id").VInt?
      && (Cell(x, "signup_date").VTime? || Cell(x, "signup_date").Missing?)
      && (Cell(x, "country").VStr? ==> HasNoLower(Cell(x, "country").s))
  {
    CustomerColumnsDistinct();
    var kept := Seqs.Filter(raw, HasCustomer);
    var out := Seqs.Map(kept, CustomerStage(parseTime));
    forall x | x in out
      ensures Cell(x, "customer_id").VInt?
      ensures Cell(x, "country").VStr? ==> HasNoLower(Cell(x, "country").s)
    {
      var i :| 0 <= i < |out| && out[i] == x;
      assert kept[i] in kept;
    }
  }

  /** A customer whose signup date cannot be read is kept, with a null signup date. */
  lemma UnreadableSignupKept(raw: seq<Row>, parseTime: Value -> Option<int>, y: Row)
    requires y in raw && HasCustomer(y)
    requires !Cell(y, "signup_date").VTime? && parseTime(Cell(y, "signup_date")).None?
    ensures CleanCustomer(y, parseTime) in Seqs.Map(Seqs.Filter(raw, HasCustomer), CustomerStage(parseTime))
    ensures Cell(CleanCustomer(y, parseTime), "signup_date") == Missing
  {
    var kept := Seqs.Filter(raw, HasCustomer);
    var i :| 0 <= i < |kept| && kept[i] == y;
    assert Seqs.Map(kept, CustomerStage(parseTime))[i] == CleanCustomer(y, parseTime);
  }
}
