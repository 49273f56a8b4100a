/**
 * Reading a raw dataset checks its header against the columns the pipeline
 * requires: a dataset missing any of them is refused with the set of missing
 * columns; a dataset with every required column (and any others) passes
 * through unchanged.
 */
module Extract {
  import opened Wrappers
  import opened Text
  import opened Frames
  import Seqs

  /** A frame as read from CSV: its header, in file order, and its rows. */
  datatype RawFrame = RawFrame(columns: seq<string>, rows: seq<Row>)

  /** The ValueError raised for a dataset without some required columns. */
  datatype SchemaError = SchemaError(dataset: string, missing: set<string>)

  /** The result of an extract step: the frame, or the schema error it raised. */
  datatype Extraction = Extracted(frame: RawFrame) | SchemaFailure(error: SchemaError)

  const ExpectedCustomerColumns: set<string> := {"customer_id", "country", "signup_date", "email"}

  const ExpectedTransactionColumns: set<string> :=
    {"transaction_id", "customer_id", "amount", "currency", "timestamp", "category"}

  /** `_validate_schema(df, expected_columns, dataset_name)`: None when nothing required is missing. */
  function ValidateSchema(columns: seq<string>, expected: set<string>, datasetName: string): (r: Option<SchemaError>)
    ensures r.None? <==> forall c :: c in expected ==> c in columns
    ensures r.Some? ==> r.value.dataset == datasetName
    ensures r.Some? ==> r.value.missing != {}
    ensures r.Some? ==> forall c :: c in r.value.missing <==> c in expected && c !in columns
  {
    var missing := expected - set c | c in columns;
    assert forall c :: c in expected && c !in columns ==> c in missing;
    if missing != {} then Some(SchemaError(datasetName, missing)) else None
  }

  /** Columns beyond the required ones never make a valid header invalid, wherever they appear. */
  lemma ExtraColumnsHarmless(columns: seq<string>, before: seq<string>, after: seq<string>, expected: set<string>, name: string)
    requires ValidateSchema(columns, expected, name).None?
    ensures ValidateSchema(before + columns + after, expected, name).None?
  {
    forall c | c in expected ensures c in before + columns + after {
      assert c in columns;
    }
  }

  /** Reordering the header changes nothing: validation depends only on which columns are present. */
  lemma OrderIrrelevant(columns: seq<string>, other: seq<string>, expected: set<string>, name: string)
    requires forall c :: c in columns <==> c in other
    ensures ValidateSchema(columns, expected, name) == ValidateSchema(other, expected, name)
  {
    assert (set c | c in columns) == (set c | c in other);
  }

  /** `extract_customers()` on the frame read from the raw customers file. */
  function ExtractCustomers(raw: RawFrame): (r: Extraction)
    ensures r.Extracted? <==> ExpectedCustomerColumns <= set c | c in raw.columns
    ensures r.Extracted? ==> r.frame == raw
    ensures r.SchemaFailure? ==>
      r.error.dataset == "customers" && r.error.missing == ExpectedCustomerColumns - set c | c in raw.columns
  {
    match ValidateSchema(raw.columns, ExpectedCustomerColumns, "customers")
    case Some(e) => SchemaFailure(e)
    case None => Extracted(raw)
  }

  /** `extract_transactions()` on the frame read from the raw transactions file. */
  function ExtractTransactions(raw: RawFrame): (r: Extraction)
    ensures r.Extracted? <==> ExpectedTransactionColumns <= set c | c in raw.columns
    ensures r.Extracted? ==> r.frame == raw
    ensures r.SchemaFailure? ==>
      r.error.dataset == "transactions" && r.error.missing == ExpectedTransactionColumns - set c | c in raw.columns
  {
    match ValidateSchema(raw.columns, ExpectedTransactionColumns, "transactions")
    case Some(e) => SchemaFailure(e)
    case None => Extracted(raw)
  }

  /** A customers file lacking its email column is refused, naming at least that column. */
  lemma CustomersWithoutEmail(raw: RawFrame)
    requires "email" !in raw.columns
    ensures ExtractCustomers(raw).SchemaFailure?
    ensures "email" in ExtractCustomers(raw).error.missing
  {
  }

  /** `repr` of a set of column names listed in `order` (Python's iteration order is not fixed). */
  function SetRepr(order: seq<string>): string {
    "{" + Quoted(order) + "}"
  }

  function Quoted(items: seq<string>): string {
    if items == [] then ""
    else if |items| == 1 then "'" + items[0] + "'"
    else "'" + items[0] + "', " + Quoted(items[1..])
  }

  /** An occurrence in `s` is still one after text is put in front of `s`. */
  lemma OccursAfter(p: string, a: string, s: string, i: int)
    requires OccursAt(p, s, i)
    ensures OccursAt(p, a + s, |a| + i)
  {
    assert (a + s)[|a| + i..|a| + i + |p|] == s[i..i + |p|];
  }

  /** Every listed name appears in the listing, in quotes. */
  lemma {:induction false} QuotedMentions(items: seq<string>, c: string)
    requires c in items
    ensures IsSubstring("'" + c + "'", Quoted(items))
  {
    var p := "'" + c + "'";
    if items[0] == c {
      assert |items| > 1 ==> Quoted(items) == p + (", " + Quoted(items[1..]));
      assert Quoted(items)[..|p|] == p;
      assert OccursAt(p, Quoted(items), 0);
    } else {
      QuotedMentions(items[1..], c);
      var i :| OccursAt(p, Quoted(items[1..]), i);
      OccursAfter(p, "'" + items[0] + "', ", Quoted(items[1..]), i);
    }
  }

  /**
   * The error's message, given the order in which Python happens to iterate
   * the missing set: it starts with the dataset and names every missing column.
   */
  function SchemaErrorText(e: SchemaError, order: seq<string>): (m: string)
    requires forall c :: c in order <==> c in e.missing
    requires Seqs.NoDuplicates(order)
    ensures |m| >= |e.dataset|
    ensures m[..|e.dataset|] == e.dataset
    ensures forall c :: c in e.missing ==> IsSubstring("'" + c + "'", m)
  {
    var head := e.dataset + " is missing required columns: {";
    var m := e.dataset + " is missing required columns: " + SetRepr(order);
    forall c | c in e.missing ensures IsSubstring("'" + c + "'", m) {
      QuotedMentions(order, c);
      var i :| OccursAt("'" + c + "'", Quoted(order), i);
      OccursAfter("'" + c + "'", head, Quoted(order), i);
      assert m == head + (Quoted(order) + "}");
      assert OccursAt("'" + c + "'", head + (Quoted(order) + "}"), |head| + i);
    }
    m
  }
}
