/**
 * The gold layer: per-customer behavioural features computed from the cleaned
 * transactions. Amounts are converted to euros with fixed 2020 rates, grouped
 * by customer into spend, average, frequency, last transaction and recency,
 * flagged for high-ticket purchases and counted for currency/country
 * mismatches, then left-joined back onto the customer table.
 */
module Features {
  import opened Wrappers
  import opened Frames
  import Seqs

  // ---- constants ----

  /** The home currency of each Nordic country. */
  const NordicCurrency: map<string, string> := map["FI" := "EUR", "SE" := "SEK", "NO" := "NOK", "DK" := "DKK"]

  /** Euro value of one unit of each known currency. */
  const ExchangeRates: map<string, real> := map["EUR" := 1.0, "SEK" := 0.097, "NOK" := 0.093, "DKK" := 0.134]

  /** A transaction above this many euros makes its customer a high-ticket user. */
  const HighTicketThreshold: real := 500.0

  const SecondsPerDay: int := 86400

  /** The columns the aggregation adds to each customer row. */
  const FeatureColumns: seq<string> := [
    "total_spend_eur", "avg_transaction_value", "transaction_frequency",
    "last_tx_date", "recency_days", "high_ticket_user", "cross_border_count"]

  // ---- row-level conversions ----

  /** `currency.map(EXCHANGE_RATES).fillna(1.0)` for one row: an unlisted or null currency counts at par. */
  function Rate(currency: Value): (r: real)
    ensures r > 0.0
    ensures currency.VStr? && currency.s in ExchangeRates ==> r == ExchangeRates[currency.s]
    ensures !(currency.VStr? && currency.s in ExchangeRates) ==> r == 1.0
  {
    if currency.VStr? && currency.s in ExchangeRates then ExchangeRates[currency.s] else 1.0
  }

  /** `amount * rate` for one row; a null amount stays null. */
  function AmountEur(row: Row): (v: Value)
    ensures v.Missing? <==> Numeric(Cell(row, "amount")).None?
    ensures v.VNum? ==> v.r == Numeric(Cell(row, "amount")).value * Rate(Cell(row, "currency"))
    ensures v.Missing? || v.VNum?
  {
    match Numeric(Cell(row, "amount"))
    case Some(x) => VNum(x * Rate(Cell(row, "currency")))
    case None => Missing
  }

  /** Converting to euros never changes the sign of an amount. */
  lemma AmountEurKeepsSign(row: Row)
    requires Numeric(Cell(row, "amount")).Some?
    ensures Numeric(AmountEur(row)).Some?
    ensures Numeric(AmountEur(row)).value > 0.0 <==> Numeric(Cell(row, "amount")).value > 0.0
  {
    var x := Numeric(Cell(row, "amount")).value;
    var rate := Rate(Cell(row, "currency"));
    if x > 0.0 {
      assert x * rate > 0.0;
    } else {
      assert x * rate <= 0.0;
    }
  }

  /** A currency without a listed rate (or no currency at all) is taken at par. */
  lemma UnlistedCurrencyAtPar(row: Row)
    requires Numeric(Cell(row, "amount")).Some?
    requires !(Cell(row, "currency").VStr? && Cell(row, "currency").s in ExchangeRates)
    ensures AmountEur(row) == VNum(Numeric(Cell(row, "amount")).value)
  {
  }

  /** `pd.to_datetime(...)` without coercion: nulls stay null, and an unreadable value is an error. */
  function ParseTimestamp(v: Value, parseTime: Value -> Option<int>): (r: Result<Value>)
    ensures v.Missing? ==> r == Ok(Missing)
    ensures v.VTime? ==> r == Ok(v)
    ensures r.Ok? ==> r.value.Missing? || r.value.VTime?
    ensures !v.Missing? && !v.VTime? ==> (r.Ok? <==> parseTime(v).Some?)
  {
    match v
    case Missing => Ok(Missing)
    case VTime(_) => Ok(v)
    case _ =>
      match parseTime(v)
      case Some(t) => Ok(VTime(t))
      case None => Err("Unknown datetime string format")
  }

  /** The timestamp column parsed on every row; the first unreadable cell fails the whole column. */
  function ParseTimestamps(txs: seq<Row>, parseTime: Value -> Option<int>): (r: Result<seq<Row>>)
    ensures r.Ok? <==> forall t :: t in txs ==> ParseTimestamp(Cell(t, "timestamp"), parseTime).Ok?
    ensures r.Ok? ==> |r.value| == |txs|
    ensures r.Ok? ==> forall i :: 0 <= i < |txs| ==>
      r.value[i] == txs[i]["timestamp" := ParseTimestamp(Cell(txs[i], "timestamp"), parseTime).value]
  {
    if txs == [] then Ok([])
    else
      assert forall t :: t in txs <==> t == txs[0] || t in txs[1..];
      match ParseTimestamp(Cell(txs[0], "timestamp"), parseTime)
      case Err(e) => Err(e)
      case Ok(v) =>
        match ParseTimestamps(txs[1..], parseTime)
        case Err(e) => Err(e)
        case Ok(rest) => Ok([txs[0]["timestamp" := v]] + rest)
  }

  // ---- grouping and aggregation ----

  function IdOf(row: Row): Value {
    Cell(row, "customer_id")
  }

  function HasId(k: Value): Row -> bool {
    (row: Row) => IdOf(row) == k
  }

  /** The rows of one `groupby('customer_id')` group, in table order. */
  function Group(rows: seq<Row>, k: Value): (g: seq<Row>)
    ensures forall x :: x in g <==> x in rows && IdOf(x) == k
  {
    Seqs.Filter(rows, HasId(k))
  }

  /** The group keys: every non-null customer id that occurs (`groupby` drops null keys). */
  function GroupKeys(rows: seq<Row>): (keys: set<Value>)
    ensures forall k :: k in keys <==> !k.Missing? && exists x :: x in rows && IdOf(x) == k
  {
    set x | x in rows && !IdOf(x).Missing? :: IdOf(x)
  }

  /** `sum` of a column, skipping nulls (an empty or all-null column sums to zero). */
  function SumColumn(rows: seq<Row>, column: string): real {
    if rows == [] then 0.0
    else
      (match Numeric(Cell(rows[0], column)) case Some(x) => x case None => 0.0)
        + SumColumn(rows[1..], column)
  }

  /** `count` of a column: its non-null cells. */
  function CountPresent(rows: seq<Row>, column: string): (n: nat)
    ensures n <= |rows|
    ensures n == |Seqs.Filter(rows, PresentIn([column]))|
  {
    if rows == [] then 0
    else (if Cell(rows[0], column) != Missing then 1 else 0) + CountPresent(rows[1..], column)
  }

  /** `mean` of a column: the sum of its numeric cells over their number, null when there are none. */
  function MeanColumn(rows: seq<Row>, column: string): (v: Value)
    ensures v.Missing? || v.VNum?
  {
    var n := CountPresent(rows, column);
    if n == 0 then Missing else VNum(SumColumn(rows, column) / n as real)
  }

  /** `max` of the timestamp column, ignoring nulls; None when there is no timestamp at all. */
  function LatestTime(rows: seq<Row>): (m: Option<int>)
    ensures m.None? <==> forall x :: x in rows ==> !Cell(x, "timestamp").VTime?
    ensures m.Some? ==> exists x :: x in rows && Cell(x, "timestamp") == VTime(m.value)
    ensures m.Some? ==> forall x :: x in rows && Cell(x, "timestamp").VTime? ==> Cell(x, "timestamp").t <= m.value
  {
    if rows == [] then None
    else
      assert forall x :: x in rows <==> x == rows[0] || x in rows[1..];
      var rest := LatestTime(rows[1..]);
      var v := Cell(rows[0], "timestamp");
      if !v.VTime? then rest
      else if rest.Some? && rest.value >= v.t then rest
      else Some(v.t)
  }

  /** A sub-table never has a later timestamp than the table it was taken from. */
  lemma LatestTimeOfPart(part: seq<Row>, whole: seq<Row>)
    requires forall x :: x in part ==> x in whole
    requires LatestTime(part).Some?
    ensures LatestTime(whole).Some? && LatestTime(part).value <= LatestTime(whole).value
  {
    var x :| x in part && Cell(x, "timestamp") == VTime(LatestTime(part).value);
    assert x in whole;
  }

  /** `(snapshot_date - last_tx_date).dt.days`: whole days elapsed, null when either date is. */
  function Recency(snapshot: Option<int>, last: Option<int>): (v: Value)
    ensures v.Missing? <==> snapshot.None? || last.None?
    ensures v.VInt? ==> v.i * SecondsPerDay <= snapshot.value - last.value < (v.i + 1) * SecondsPerDay
  {
    if snapshot.Some? && last.Some? then VInt((snapshot.value - last.value) / SecondsPerDay) else Missing
  }

  /** The gold columns are pairwise different names. */
  lemma GoldColumnsDistinct()
    ensures "customer_id" != "total_spend_eur"
    ensures "customer_id" != "avg_transaction_value"
    ensures "customer_id" != "transaction_frequency"
    ensures "customer_id" != "last_tx_date"
    ensures "customer_id" != "recency_days"
    ensures "customer_id" != "high_ticket_user"
    ensures "customer_id" != "cross_border_count"
    ensures "total_spend_eur" != "avg_transaction_value"
    ensures "total_spend_eur" != "transaction_frequency"
    ensures "total_spend_eur" != "last_tx_date"
    ensures "total_spend_eur" != "recency_days"
    ensures "total_spend_eur" != "high_ticket_user"
    ensures "total_spend_eur" != "cross_border_count"
    ensures "avg_transaction_value" != "transaction_frequency"
    ensures "avg_transaction_value" != "last_tx_date"
    ensures "avg_transaction_value" != "recency_days"
    ensures "avg_transaction_value" != "high_ticket_user"
    ensures "avg_transaction_value" != "cross_border_count"
    ensures "transaction_frequency" != "last_tx_date"
    ensures "transaction_frequency" != "recency_days"
    ensures "transaction_frequency" != "high_ticket_user"
    ensures "transaction_frequency" != "cross_border_count"
    ensures "last_tx_date" != "recency_days"
    ensures "last_tx_date" != "high_ticket_user"
    ensures "last_tx_date" != "cross_border_count"
    ensures "recency_days" != "high_ticket_user"
    ensures "recency_days" != "cross_border_count"
    ensures "high_ticket_user" != "cross_border_count"
  {
    assert "avg_transaction_value"[0] != "transaction_frequency"[0];
    assert "last_tx_date"[0] != "recency_days"[0];
  }

  /** One row of `_calculate_base_metrics`: the five aggregates and the recency of customer `k`. */
  function BaseMetrics(k: Value, txs: seq<Row>, snapshot: Option<int>): Row {
    var g := Group(txs, k);
    var last := LatestTime(g);
    MetricsRow(k, VNum(SumColumn(g, "amount_eur")), MeanColumn(g, "amount_eur"),
      VInt(CountPresent(g, "transaction_id")), if last.Some? then VTime(last.value) else Missing,
      Recency(snapshot, last))
  }

  /** The row `_calculate_base_metrics` builds for one customer from its six values. */
  function MetricsRow(k: Value, total: Value, avg: Value, frequency: Value, lastDate: Value, recency: Value): (r: Row)
    ensures r.Keys == {"customer_id", "total_spend_eur", "avg_transaction_value", "transaction_frequency",
                       "last_tx_date", "recency_days"}
  {
    map[
      "customer_id" := k,
      "total_spend_eur" := total,
      "avg_transaction_value" := avg,
      "transaction_frequency" := frequency,
      "last_tx_date" := lastDate,
      "recency_days" := recency]
  }

  lemma MetricsRowCells(k: Value, total: Value, avg: Value, frequency: Value, lastDate: Value, recency: Value)
    ensures var r := MetricsRow(k, total, avg, frequency, lastDate, recency);
      && Cell(r, "customer_id") == k && Cell(r, "total_spend_eur") == total
      && Cell(r, "avg_transaction_value") == avg && Cell(r, "transaction_frequency") == frequency
      && Cell(r, "last_tx_date") == lastDate && Cell(r, "recency_days") == recency
  {
    GoldColumnsDistinct();
  }
  lemma BaseMetricsCells(k: Value, txs: seq<Row>, snapshot: Option<int>)
    ensures var g := Group(txs, k); var last := LatestTime(g); var b := BaseMetrics(k, txs, snapshot);
      && Cell(b, "total_spend_eur") == VNum(SumColumn(g, "amount_eur"))
      && Cell(b, "avg_transaction_value") == MeanColumn(g, "amount_eur")
      && Cell(b, "transaction_frequency") == VInt(CountPresent(g, "transaction_id"))
      && Cell(b, "last_tx_date") == (if last.Some? then VTime(last.value) else Missing)
      && Cell(b, "recency_days") == Recency(snapshot, last)
  {
    var g := Group(txs, k);
    var last := LatestTime(g);
    MetricsRowCells(k, VNum(SumColumn(g, "amount_eur")), MeanColumn(g, "amount_eur"),
      VInt(CountPresent(g, "transaction_id")), if last.Some? then VTime(last.value) else Missing,
      Recency(snapshot, last));
  }



  // ---- policy flags ----

  /** The row's euro amount is strictly above the high-ticket threshold. */
  predicate HighTicket(row: Row) {
    Numeric(Cell(row, "amount_eur")).Some? && Numeric(Cell(row, "amount_eur")).value > HighTicketThreshold
  }

  /** Some row of the table is a high-ticket transaction. */
  predicate AnyHighTicket(rows: seq<Row>) {
    exists t :: t in rows && HighTicket(t)
  }

  /** The currency is not the home currency of the country; an unknown or null country never has one. */
  predicate Mismatch(currency: Value, country: Value) {
    !(country.VStr? && country.s in NordicCurrency && currency == VStr(NordicCurrency[country.s]))
  }

  /** A transaction of a customer from a country outside the map always counts as cross-border. */
  lemma UnknownCountryMismatches(currency: Value, country: Value)
    requires !(country.VStr? && country.s in NordicCurrency)
    ensures Mismatch(currency, country)
  {
  }

  /** Paying in the home currency is never cross-border. */
  lemma HomeCurrencyMatches(country: string)
    requires country in NordicCurrency
    ensures !Mismatch(VStr(NordicCurrency[country]), VStr(country))
  {
  }

  /** The transaction row joined with one customer row's country (`merge(..., on='customer_id')`). */
  function JoinCountry(t: Row, c: Row): Row {
    t["country" := Cell(c, "country")]
  }

  function JoinWith(t: Row): Row -> Row {
    (c: Row) => JoinCountry(t, c)
  }

  /**
   * The inner join of the transactions with the customers' countries: every
   * transaction paired with every customer row of the same id, in transaction order.
   */
  function InnerJoin(txs: seq<Row>, customers: seq<Row>): seq<Row> {
    if txs == [] then []
    else Seqs.Map(Group(customers, IdOf(txs[0])), JoinWith(txs[0])) + InnerJoin(txs[1..], customers)
  }

  /** The `is_mismatch` value of one joined row. */
  function MismatchValue(row: Row): Value {
    VBool(Mismatch(Cell(row, "currency"), Cell(row, "country")))
  }

  /** `is_mismatch` written into one joined row. */
  function MarkMismatch(row: Row): Row {
    row["is_mismatch" := MismatchValue(row)]
  }

  function IsMismatchRow(row: Row): bool {
    Cell(row, "is_mismatch") == VBool(true)
  }

  /** `groupby('customer_id')['is_mismatch'].sum()` for group `k`. */
  function MismatchSum(joined: seq<Row>, k: Value): nat {
    |Seqs.Filter(Group(joined, k), IsMismatchRow)|
  }

  function MismatchWith(t: Row): Row -> bool {
    (c: Row) => Mismatch(Cell(t, "currency"), Cell(c, "country"))
  }

  /** The number of (transaction, customer row) pairs, over `g` and `homes`, whose currency is not the home one. */
  function MismatchCount(g: seq<Row>, homes: seq<Row>): nat {
    if g == [] then 0
    else |Seqs.Filter(homes, MismatchWith(g[0]))| + MismatchCount(g[1..], homes)
  }

  function JoinMarked(t: Row): Row -> Row {
    (c: Row) => MarkMismatch(JoinCountry(t, c))
  }

  /** The joined rows of one transaction, already marked. */
  function MarkedPiece(t: Row, customers: seq<Row>): seq<Row> {
    Seqs.Map(Group(customers, IdOf(t)), JoinMarked(t))
  }

  /** The inner join with `is_mismatch` assigned, built transaction by transaction. */
  function MarkedJoin(txs: seq<Row>, customers: seq<Row>): seq<Row> {
    if txs == [] then []
    else MarkedPiece(txs[0], customers) + MarkedJoin(txs[1..], customers)
  }

  /** Assigning `is_mismatch` over the whole join is marking each transaction's piece. */
  lemma {:induction false} MarkedJoinIsMarked(txs: seq<Row>, customers: seq<Row>)
    ensures Seqs.Map(InnerJoin(txs, customers), MarkMismatch) == MarkedJoin(txs, customers)
  {
    if txs != [] {
      MarkedJoinIsMarked(txs[1..], customers);
      var piece := Seqs.Map(Group(customers, IdOf(txs[0])), JoinWith(txs[0]));
      var rest := InnerJoin(txs[1..], customers);
      var whole := Seqs.Map(piece + rest, MarkMismatch);
      assert whole == Seqs.Map(piece, MarkMismatch) + Seqs.Map(rest, MarkMismatch);
      assert Seqs.Map(piece, MarkMismatch) == MarkedPiece(txs[0], customers);
    }
  }

  /** Selecting a group distributes over concatenation. */
  lemma GroupAppend(a: seq<Row>, b: seq<Row>, k: Value)
    ensures Group(a + b, k) == Group(a, k) + Group(b, k)
    ensures MismatchSum(a + b, k) == MismatchSum(a, k) + MismatchSum(b, k)
  {
    Seqs.FilterAppend(a, b, HasId(k));
    Seqs.FilterAppend(Group(a, k), Group(b, k), IsMismatchRow);
  }

  /** A transaction's piece lies wholly inside its own customer's group. */
  lemma PieceGroup(t: Row, customers: seq<Row>, k: Value)
    ensures IdOf(t) == k ==> Group(MarkedPiece(t, customers), k) == MarkedPiece(t, customers)
    ensures IdOf(t) != k ==> Group(MarkedPiece(t, customers), k) == []
  {
    var p := MarkedPiece(t, customers);
    assert forall j :: 0 <= j < |p| ==> IdOf(p[j]) == IdOf(t);
    if IdOf(t) == k {
      Seqs.FilterAll(p, HasId(k));
    } else {
      Seqs.FilterNone(p, HasId(k));
    }
  }

  /** The marked rows of a piece are exactly its customer rows whose country the currency mismatches. */
  lemma PieceMismatches(t: Row, customers: seq<Row>)
    ensures |Seqs.Filter(MarkedPiece(t, customers), IsMismatchRow)|
         == |Seqs.Filter(Group(customers, IdOf(t)), MismatchWith(t))|
  {
    var g := Group(customers, IdOf(t));
    forall i | 0 <= i < |g| ensures MismatchWith(t)(g[i]) == IsMismatchRow(JoinMarked(t)(g[i])) {
      var j := JoinCountry(t, g[i]);
      assert Cell(j, "currency") == Cell(t, "currency");
    }
    Seqs.FilterMap(g, JoinMarked(t), IsMismatchRow, MismatchWith(t));
  }

  /** The group of a table with one more row at the front. */
  lemma GroupCons(txs: seq<Row>, k: Value)
    requires txs != []
    ensures IdOf(txs[0]) == k ==> Group(txs, k) == [txs[0]] + Group(txs[1..], k)
    ensures IdOf(txs[0]) != k ==> Group(txs, k) == Group(txs[1..], k)
  {
  }

  /** The mismatch sum of one transaction's piece: its mismatching customer rows when it belongs to group `k`. */
  lemma PieceSum(t: Row, customers: seq<Row>, k: Value)
    ensures MismatchSum(MarkedPiece(t, customers), k)
         == if IdOf(t) == k then |Seqs.Filter(Group(customers, k), MismatchWith(t))| else 0
  {
    PieceGroup(t, customers, k);
    if IdOf(t) == k {
      PieceMismatches(t, customers);
    }
  }

  /** The pairwise mismatch count of a group with one more transaction at the front. */
  lemma MismatchCountCons(txs: seq<Row>, homes: seq<Row>, k: Value)
    requires txs != []
    ensures MismatchCount(Group(txs, k), homes)
         == (if IdOf(txs[0]) == k then |Seqs.Filter(homes, MismatchWith(txs[0]))| else 0)
            + MismatchCount(Group(txs[1..], k), homes)
  {
    GroupCons(txs, k);
    if IdOf(txs[0]) == k {
      var g := Group(txs, k);
      assert g[0] == txs[0] && g[1..] == Group(txs[1..], k);
    }
  }

  /** The mismatch sum of group `k` over the join is the pairwise mismatch count of its transactions and customer rows. */
  lemma {:induction false} JoinMismatchCount(txs: seq<Row>, customers: seq<Row>, k: Value)
    ensures MismatchSum(MarkedJoin(txs, customers), k) == MismatchCount(Group(txs, k), Group(customers, k))
  {
    if txs != [] {
      var t := txs[0];
      var piece := MarkedPiece(t, customers);
      calc {
        MismatchSum(MarkedJoin(txs, customers), k);
        { GroupAppend(piece, MarkedJoin(txs[1..], customers), k); }
        MismatchSum(piece, k) + MismatchSum(MarkedJoin(txs[1..], customers), k);
        { JoinMismatchCount(txs[1..], customers, k); }
        MismatchSum(piece, k) + MismatchCount(Group(txs[1..], k), Group(customers, k));
        { PieceSum(t, customers, k); MismatchCountCons(txs, Group(customers, k), k); }
        MismatchCount(Group(txs, k), Group(customers, k));
      }
    }
  }

  /** Group `k` of the join is non-empty exactly when customer `k` has both transactions and customer rows. */
  lemma {:induction false} JoinGroupNonEmpty(txs: seq<Row>, customers: seq<Row>, k: Value)
    ensures Group(MarkedJoin(txs, customers), k) != [] <==> Group(txs, k) != [] && Group(customers, k) != []
  {
    if txs != [] {
      var t := txs[0];
      JoinGroupNonEmpty(txs[1..], customers, k);
      GroupAppend(MarkedPiece(t, customers), MarkedJoin(txs[1..], customers), k);
      PieceGroup(t, customers, k);
      GroupCons(txs, k);
    }
  }

  // ---- the gold table ----

  /** `cross_border_count` of customer `k`: null when no customer row carries `k` (the join drops the group). */
  function CrossBorder(k: Value, txs: seq<Row>, customers: seq<Row>): Value {
    var homes := Group(customers, k);
    if homes == [] then Missing else VInt(MismatchCount(Group(txs, k), homes))
  }

  /** The complete feature row of customer `k`: base metrics, high-ticket flag and cross-border count. */
  function FeatureRow(k: Value, txs: seq<Row>, customers: seq<Row>, snapshot: Option<int>): (r: Row)
    ensures forall col :: col in r <==> col == "customer_id" || col in FeatureColumns
  {
    GoldColumnsDistinct();
    BaseMetrics(k, txs, snapshot)
      ["high_ticket_user" := VBool(AnyHighTicket(Group(txs, k)))]
      ["cross_border_count" := CrossBorder(k, txs, customers)]
  }

  /** The two flags are written over the base metrics and leave their columns alone. */
  lemma FeatureRowKeepsBase(k: Value, txs: seq<Row>, customers: seq<Row>, snapshot: Option<int>)
    ensures forall col :: col in BaseMetrics(k, txs, snapshot) ==>
      Cell(FeatureRow(k, txs, customers, snapshot), col) == Cell(BaseMetrics(k, txs, snapshot), col)
  {
    GoldColumnsDistinct();
  }

  /** The spend and count columns of a feature row. */
  lemma FeatureRowTotals(k: Value, txs: seq<Row>, customers: seq<Row>, snapshot: Option<int>)
    ensures Cell(FeatureRow(k, txs, customers, snapshot), "total_spend_eur") == VNum(SumColumn(Group(txs, k), "amount_eur"))
    ensures Cell(FeatureRow(k, txs, customers, snapshot), "avg_transaction_value") == MeanColumn(Group(txs, k), "amount_eur")
    ensures Cell(FeatureRow(k, txs, customers, snapshot), "transaction_frequency")
         == VInt(CountPresent(Group(txs, k), "transaction_id"))
  {
    BaseMetricsCells(k, txs, snapshot);
    FeatureRowKeepsBase(k, txs, customers, snapshot);
  }

  /** The date columns of a feature row. */
  lemma FeatureRowDates(k: Value, txs: seq<Row>, customers: seq<Row>, snapshot: Option<int>)
    ensures var last := LatestTime(Group(txs, k));
      Cell(FeatureRow(k, txs, customers, snapshot), "last_tx_date") == (if last.Some? then VTime(last.value) else Missing)
    ensures Cell(FeatureRow(k, txs, customers, snapshot), "recency_days") == Recency(snapshot, LatestTime(Group(txs, k)))
  {
    BaseMetricsCells(k, txs, snapshot);
    FeatureRowKeepsBase(k, txs, customers, snapshot);
  }

  /** The flag columns of a feature row. */
  lemma FeatureRowFlags(k: Value, txs: seq<Row>, customers: seq<Row>, snapshot: Option<int>)
    ensures Cell(FeatureRow(k, txs, customers, snapshot), "high_ticket_user") == VBool(AnyHighTicket(Group(txs, k)))
    ensures Cell(FeatureRow(k, txs, customers, snapshot), "cross_border_count") == CrossBorder(k, txs, customers)
  {
    GoldColumnsDistinct();
  }

  /** The feature columns of a customer with no transactions: all null. */
  function NoFeatures(): map<string, Value> {
    map c | c in FeatureColumns :: Missing
  }

  /**
   * One row of the left join `customers_df.merge(gold_features, how='left')`,
   * as specified per customer: the customer's own columns, then the features
   * of its id when it has transactions, null features otherwise.
   */
  function CustomerFeatures(c: Row, customers: seq<Row>, txs: seq<Row>): (r: Row)
    ensures IdOf(c) in GroupKeys(txs) ==>
      forall col :: col in FeatureColumns ==> Cell(r, col) == Cell(FeatureRow(IdOf(c), txs, customers, LatestTime(txs)), col)
    ensures IdOf(c) !in GroupKeys(txs) ==> forall col :: col in FeatureColumns ==> Cell(r, col) == Missing
    ensures forall col :: col in c && col !in FeatureColumns ==> Cell(r, col) == c[col]
    ensures forall col :: col in FeatureColumns ==> col in r
  {
    var k := IdOf(c);
    if k in GroupKeys(txs) then c + FeatureRow(k, txs, customers, LatestTime(txs)) else c + NoFeatures()
  }

  /** The transactions after line 35: every row gains its euro amount. */
  function WithAmountEur(txs: seq<Row>): (r: seq<Row>)
    ensures |r| == |txs|
    ensures forall i :: 0 <= i < |txs| ==> r[i] == txs[i]["amount_eur" := AmountEur(txs[i])]
  {
    AssignColumn(txs, "amount_eur", AmountEur)
  }

  /** A merge step of the implementation: look up the gold row of the customer's id. */
  function LeftJoin(c: Row, gold: map<Value, Row>): Row {
    if IdOf(c) in gold then c + gold[IdOf(c)] else c + NoFeatures()
  }

  /** Tables whose timestamp columns agree have the same latest timestamp. */
  lemma {:induction false} LatestTimeSameTimestamps(a: seq<Row>, b: seq<Row>)
    requires |a| == |b|
    requires forall i :: 0 <= i < |a| ==> Cell(a[i], "timestamp") == Cell(b[i], "timestamp")
    ensures LatestTime(a) == LatestTime(b)
  {
    if a != [] {
      LatestTimeSameTimestamps(a[1..], b[1..]);
    }
  }

  /** The implementation's cross-border merge agrees with the per-customer count. */
  lemma CrossBorderMerge(txs: seq<Row>, customers: seq<Row>, temp: seq<Row>, k: Value)
    requires temp == MarkedJoin(txs, customers)
    requires k in GroupKeys(txs)
    ensures k in GroupKeys(temp) <==> Group(customers, k) != []
    ensures k in GroupKeys(temp) ==> CrossBorder(k, txs, customers) == VInt(MismatchSum(temp, k))
  {
    var x :| x in txs && IdOf(x) == k;
    assert x in Group(txs, k);
    JoinGroupNonEmpty(txs, customers, k);
    JoinMismatchCount(txs, customers, k);
    if Group(temp, k) != [] {
      assert Group(temp, k)[0] in temp;
    }
  }

  /** The implementation's high-ticket lookup agrees with the per-customer flag. */
  lemma HighTicketMerge(txs: seq<Row>, highIds: set<Value>, k: Value)
    requires forall j :: j in highIds <==> exists t :: t in txs && HighTicket(t) && IdOf(t) == j
    ensures (k in highIds) == AnyHighTicket(Group(txs, k))
  {
    if k in highIds {
      var t :| t in txs && HighTicket(t) && IdOf(t) == k;
      assert t in Group(txs, k);
    }
  }

  /** A feature row is the base metrics with whatever equals the two flags written over them. */
  lemma FeatureRowFrom(k: Value, txs: seq<Row>, customers: seq<Row>, snapshot: Option<int>, high: bool, cross: Value)
    requires high == AnyHighTicket(Group(txs, k))
    requires cross == CrossBorder(k, txs, customers)
    ensures BaseMetrics(k, txs, snapshot)["high_ticket_user" := VBool(high)]["cross_border_count" := cross]
            == FeatureRow(k, txs, customers, snapshot)
  {
  }

  /** The gold row the implementation builds for a key is the specified feature row. */
  lemma GoldRow(txs: seq<Row>, customers: seq<Row>, temp: seq<Row>, snapshot: Option<int>, k: Value,
                base: Row, high: Value, cross: Value)
    requires temp == MarkedJoin(txs, customers)
    requires k in GroupKeys(txs)
    requires base == BaseMetrics(k, txs, snapshot)
    requires high == VBool(k in HighTicketIds(txs))
    requires cross == if k in GroupKeys(temp) then VInt(MismatchSum(temp, k)) else Missing
    ensures base["high_ticket_user" := high]["cross_border_count" := cross] == FeatureRow(k, txs, customers, snapshot)
  {
    CrossBorderMerge(txs, customers, temp, k);
    HighTicketMerge(txs, HighTicketIds(txs), k);
    FeatureRowFrom(k, txs, customers, snapshot, k in HighTicketIds(txs), cross);
  }

  /** Looking the customer up in a gold table holding exactly the specified feature rows gives its specified row. */
  lemma LeftJoinMatches(c: Row, customers: seq<Row>, txs: seq<Row>, gold: map<Value, Row>)
    requires forall k :: k in gold <==> k in GroupKeys(txs)
    requires forall k :: k in gold ==> gold[k] == FeatureRow(k, txs, customers, LatestTime(txs))
    ensures LeftJoin(c, gold) == CustomerFeatures(c, customers, txs)
  {
  }

  /** The base metrics of every customer id that has transactions. */
  function BaseTable(txs: seq<Row>, snapshot: Option<int>): (t: map<Value, Row>)
    ensures forall k :: k in t <==> k in GroupKeys(txs)
    ensures forall k :: k in t ==> t[k] == BaseMetrics(k, txs, snapshot)
  {
    map k | k in GroupKeys(txs) :: BaseMetrics(k, txs, snapshot)
  }

  /** The ids of the customers with a transaction above the high-ticket threshold. */
  function HighTicketIds(txs: seq<Row>): (ids: set<Value>)
    ensures forall j :: j in ids <==> exists t :: t in txs && HighTicket(t) && IdOf(t) == j
  {
    set t | t in txs && HighTicket(t) :: IdOf(t)
  }

  /** `isin(high_ticket_ids)` for every key of the table. */
  function HighTicketColumn(keys: set<Value>, ids: set<Value>): (v: map<Value, Value>)
    ensures v.Keys == keys
    ensures forall k :: k in v ==> v[k] == VBool(k in ids)
  {
    map k | k in keys :: VBool(k in ids)
  }

  /** The left-merged `cross_border_count` for every key of the table: the group's mismatch sum, or null. */
  function CrossBorderColumn(keys: set<Value>, temp: seq<Row>): (v: map<Value, Value>)
    ensures v.Keys == keys
    ensures forall k :: k in v ==> v[k] == if k in GroupKeys(temp) then VInt(MismatchSum(temp, k)) else Missing
  {
    map k | k in keys :: if k in GroupKeys(temp) then VInt(MismatchSum(temp, k)) else Missing
  }

  /** Assigning the `is_mismatch` column is marking every row. */
  lemma MismatchAssigned(df: seq<Row>)
    ensures AssignColumn(df, "is_mismatch", MismatchValue) == Seqs.Map(df, MarkMismatch)
  {
  }

  /** A column written into every row of a keyed table, the value for each key taken from `values`. */
  function WithColumn(table: map<Value, Row>, column: string, values: map<Value, Value>): (t: map<Value, Row>)
    requires table.Keys <= values.Keys
    ensures t.Keys == table.Keys
    ensures forall k :: k in t ==> t[k] == table[k][column := values[k]]
  {
    map k | k in table :: table[k][column := values[k]]
  }

  /**
   * The gold features of `run_feature_engineering`: `_calculate_base_metrics`,
   * then the high-ticket flag, then the left merge of the cross-border counts,
   * one row per customer id that has transactions.
   */
  method GoldFeatures(transactions: seq<Row>, customers: seq<Row>, snapshot: Option<int>) returns (gold: map<Value, Row>)
    ensures forall k :: k in gold <==> k in GroupKeys(transactions)
    ensures forall k :: k in gold ==> gold[k] == FeatureRow(k, transactions, customers, snapshot)
  {
    var base := BaseTable(transactions, snapshot);

    // high_ticket_user
    var high := HighTicketColumn(base.Keys, HighTicketIds(transactions));
    var flagged := WithColumn(base, "high_ticket_user", high);

    // cross_border_count
    var temp := InnerJoin(transactions, customers);
    temp := AssignColumn(temp, "is_mismatch", MismatchValue);
    MismatchAssigned(InnerJoin(transactions, customers));
    MarkedJoinIsMarked(transactions, customers);
    var cross := CrossBorderColumn(flagged.Keys, temp);
    gold := WithColumn(flagged, "cross_border_count", cross);

    forall k | k in gold ensures gold[k] == FeatureRow(k, transactions, customers, snapshot) {
      GoldRow(transactions, customers, temp, snapshot, k, base[k], high[k], cross[k]);
    }
  }

  /**
   * `run_feature_engineering(customers_df, transactions_df)` up to the final
   * left join (the saves are left out). Fails only when a timestamp cannot be
   * parsed; otherwise returns one row per customer row, in order, each the
   * customer's columns with the features of its transactions.
   */
  method RunFeatureEngineering(customers: seq<Row>, transactionsDf: seq<Row>, parseTime: Value -> Option<int>)
    returns (r: Result<seq<Row>>)
    ensures r.Err? <==> exists t :: t in transactionsDf && ParseTimestamp(Cell(t, "timestamp"), parseTime).Err?
    ensures r.Ok? ==> |r.value| == |customers|
    ensures r.Ok? ==> forall i :: 0 <= i < |customers| ==>
      r.value[i] == CustomerFeatures(customers[i], customers, WithAmountEur(ParseTimestamps(transactionsDf, parseTime).value))
  {
    // date handling, on a copy of the input
    var parsed := ParseTimestamps(transactionsDf, parseTime);
    if parsed.Err? {
      return Err(parsed.error);
    }
    var transactions := parsed.value;
    var snapshot := LatestTime(transactions);

    // euro amounts
    transactions := AssignColumn(transactions, "amount_eur", AmountEur);
    LatestTimeSameTimestamps(parsed.value, transactions);
    assert transactions == WithAmountEur(parsed.value);

    var gold := GoldFeatures(transactions, customers, snapshot);

    // final left join onto the customers
    var finalGold := Seqs.Map(customers, (c: Row) => LeftJoin(c, gold));
    forall i | 0 <= i < |customers| ensures finalGold[i] == CustomerFeatures(customers[i], customers, transactions) {
      LeftJoinMatches(customers[i], customers, transactions, gold);
    }
    r := Ok(finalGold);
  }

  // ---- what the gold table promises per customer ----

  /** A customer gets a transaction count exactly when it has a non-null id with transactions; otherwise every feature is null. */
  lemma FeaturesIffTransactions(c: Row, customers: seq<Row>, txs: seq<Row>)
    ensures Cell(CustomerFeatures(c, customers, txs), "transaction_frequency").VInt?
        <==> !IdOf(c).Missing? && Group(txs, IdOf(c)) != []
    ensures IdOf(c).Missing? || Group(txs, IdOf(c)) == [] ==>
      forall col :: col in FeatureColumns ==> Cell(CustomerFeatures(c, customers, txs), col) == Missing
  {
    FeatureRowTotals(IdOf(c), txs, customers, LatestTime(txs));
    var k := IdOf(c);
    if !k.Missing? && Group(txs, k) != [] {
      assert Group(txs, k)[0] in txs;
    }
  }

  /** `count` counts every row when the column has no nulls. */
  lemma {:induction false} CountAllPresent(rows: seq<Row>, column: string)
    requires forall x :: x in rows ==> Cell(x, column) != Missing
    ensures CountPresent(rows, column) == |rows|
  {
    if rows != [] {
      assert rows[0] in rows;
      assert forall x :: x in rows[1..] ==> x in rows;
      CountAllPresent(rows[1..], column);
    }
  }

  /** The frequency is the customer's number of transactions, the spend their euro sum, the average that sum over the count. */
  lemma CustomerAggregates(c: Row, customers: seq<Row>, txs: seq<Row>)
    requires !IdOf(c).Missing? && Group(txs, IdOf(c)) != []
    requires forall t :: t in txs ==> Cell(t, "transaction_id") != Missing && Cell(t, "amount_eur") != Missing
    ensures Cell(CustomerFeatures(c, customers, txs), "transaction_frequency") == VInt(|Group(txs, IdOf(c))|)
    ensures Cell(CustomerFeatures(c, customers, txs), "total_spend_eur") == VNum(SumColumn(Group(txs, IdOf(c)), "amount_eur"))
    ensures Cell(CustomerFeatures(c, customers, txs), "avg_transaction_value")
         == VNum(SumColumn(Group(txs, IdOf(c)), "amount_eur") / |Group(txs, IdOf(c))| as real)
  {
    FeatureRowTotals(IdOf(c), txs, customers, LatestTime(txs));
    var g := Group(txs, IdOf(c));
    FeaturesIffTransactions(c, customers, txs);
    assert IdOf(c) in GroupKeys(txs) by {
      assert g[0] in txs;
    }
    CountAllPresent(g, "transaction_id");
    CountAllPresent(g, "amount_eur");
  }

  /** The last transaction date is the latest timestamp among the customer's transactions. */
  lemma LastTransactionIsLatest(c: Row, customers: seq<Row>, txs: seq<Row>, t: Row)
    requires !IdOf(c).Missing? && t in txs && IdOf(t) == IdOf(c) && Cell(t, "timestamp").VTime?
    ensures Cell(CustomerFeatures(c, customers, txs), "last_tx_date").VTime?
    ensures Cell(t, "timestamp").t <= Cell(CustomerFeatures(c, customers, txs), "last_tx_date").t
    ensures exists u :: u in txs && IdOf(u) == IdOf(c)
                && Cell(u, "timestamp") == Cell(CustomerFeatures(c, customers, txs), "last_tx_date")
  {
    FeatureRowDates(IdOf(c), txs, customers, LatestTime(txs));
    var g := Group(txs, IdOf(c));
    assert t in g;
    assert IdOf(c) in GroupKeys(txs);
  }

  /** The snapshot is the latest timestamp of all transactions, so no recency is negative. */
  lemma RecencyNonNegative(c: Row, customers: seq<Row>, txs: seq<Row>)
    ensures var v := Cell(CustomerFeatures(c, customers, txs), "recency_days");
      v.Missing? || (v.VInt? && v.i >= 0)
  {
    FeatureRowDates(IdOf(c), txs, customers, LatestTime(txs));
    var k := IdOf(c);
    if k in GroupKeys(txs) && LatestTime(Group(txs, k)).Some? {
      LatestTimeOfPart(Group(txs, k), txs);
    }
  }

  /** A group holds a high-ticket transaction exactly when the table has one with that id. */
  lemma GroupHighTicket(txs: seq<Row>, k: Value)
    ensures AnyHighTicket(Group(txs, k)) <==> exists t :: t in txs && IdOf(t) == k && HighTicket(t)
  {
    if exists t :: t in txs && IdOf(t) == k && HighTicket(t) {
      var t :| t in txs && IdOf(t) == k && HighTicket(t);
      assert t in Group(txs, k);
    }
  }

  /** `high_ticket_user` holds exactly when one of the customer's transactions exceeds 500 euros. */
  lemma HighTicketIff(c: Row, customers: seq<Row>, txs: seq<Row>)
    requires !IdOf(c).Missing? && Group(txs, IdOf(c)) != []
    ensures Cell(CustomerFeatures(c, customers, txs), "high_ticket_user") == VBool(true)
        <==> exists t :: t in txs && IdOf(t) == IdOf(c) && HighTicket(t)
  {
    var k := IdOf(c);
    assert k in GroupKeys(txs) by {
      assert Group(txs, k)[0] in txs;
    }
    FeatureRowFlags(k, txs, customers, LatestTime(txs));
    assert Cell(CustomerFeatures(c, customers, txs), "high_ticket_user") == VBool(AnyHighTicket(Group(txs, k)));
    GroupHighTicket(txs, k);
  }


  function TxMismatch(country: Value): Row -> bool {
    (t: Row) => Mismatch(Cell(t, "currency"), country)
  }

  /** With a single customer row, the pairwise count is the count of transactions not in that row's home currency. */
  lemma {:induction false} MismatchCountSingle(g: seq<Row>, home: Row)
    ensures MismatchCount(g, [home]) == |Seqs.Filter(g, TxMismatch(Cell(home, "country")))|
  {
    if g != [] {
      MismatchCountSingle(g[1..], home);
      assert [home][1..] == [];
    }
  }

  /**
   * For a customer whose id occurs once in the customer table, `cross_border_count`
   * is the number of its transactions not paid in its country's home currency;
   * a country outside the map counts every transaction.
   */
  lemma CrossBorderOfCustomer(c: Row, customers: seq<Row>, txs: seq<Row>)
    requires !IdOf(c).Missing? && Group(txs, IdOf(c)) != []
    requires Group(customers, IdOf(c)) == [c]
    ensures Cell(CustomerFeatures(c, customers, txs), "cross_border_count")
         == VInt(|Seqs.Filter(Group(txs, IdOf(c)), TxMismatch(Cell(c, "country")))|)
    ensures !(Cell(c, "country").VStr? && Cell(c, "country").s in NordicCurrency) ==>
      Cell(CustomerFeatures(c, customers, txs), "cross_border_count") == VInt(|Group(txs, IdOf(c))|)
  {
    FeatureRowFlags(IdOf(c), txs, customers, LatestTime(txs));
    var g := Group(txs, IdOf(c));
    assert g[0] in txs;
    assert IdOf(c) in GroupKeys(txs);
    MismatchCountSingle(g, c);
    if !(Cell(c, "country").VStr? && Cell(c, "country").s in NordicCurrency) {
      Seqs.FilterAll(g, TxMismatch(Cell(c, "country")));
    }
  }
}
