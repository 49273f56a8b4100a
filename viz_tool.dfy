/**
 * The visualization tool without its drawing: which customer is highlighted,
 * which metric column is plotted with which title and axis label, the
 * distribution drawn and the value of the reference line, plus the two
 * failures the tool raises.
 */
module VizTool {
  import opened Wrappers
  import opened Frames
  import opened ToolSchema
  import Seqs

  /** One entry of the plot configuration: the column shown, the title and the x-axis label. */
  datatype PlotConfig = PlotConfig(column: string, title: string, xLabel: string)

  /** Everything the figure shows apart from styling. */
  datatype PlotPlan = PlotPlan(
    config: PlotConfig,
    distribution: seq<Value>,
    customerValue: Value,
    yLabel: string)

  const PlotConfigs: map<string, PlotConfig> := map[
    "avg_transaction" := PlotConfig("avg_transaction_value",
      "Distribution of Average Transaction Value", "Avg Transaction Value (EUR)"),
    "frequency" := PlotConfig("transaction_frequency",
      "Distribution of Transaction Frequency", "Number of Transactions"),
    "recency" := PlotConfig("recency_days",
      "Distribution of Recency (Days Since Last Transaction)", "Recency (days)"),
    "cross_border" := PlotConfig("cross_border_count",
      "Distribution of Cross-Border Transaction Count", "Cross-Border Transaction Count")
  ]

  const PlotTypes: seq<string> := ["avg_transaction", "frequency", "recency", "cross_border"]

  function NotFoundText(customerId: int): string {
    "Customer ID " + Text.IntText(customerId) + " not found."
  }

  function UnsupportedText(plotType: string): string {
    "Unsupported plot type: " + plotType
  }

  function IsCustomer(customerId: int): Row -> bool {
    (row: Row) => CellEquals(Cell(row, "customer_id"), LInt(customerId))
  }

  /** The values of `column` over every customer row, in table order. */
  function ColumnValues(rows: seq<Row>, column: string): (r: seq<Value>)
    ensures |r| == |rows|
    ensures forall i :: 0 <= i < |rows| ==> r[i] == Cell(rows[i], column)
  {
    seq(|rows|, i requires 0 <= i < |rows| => Cell(rows[i], column))
  }

  /** `generate_customer_visualization(customer_id, plot_type)`, up to the drawing calls. */
  function GenerateCustomerVisualization(customers: seq<Row>, customerId: int, plotType: string): (r: Result<PlotPlan>)
    ensures Seqs.Filter(customers, IsCustomer(customerId)) == [] ==> r == Err(NotFoundText(customerId))
    ensures Seqs.Filter(customers, IsCustomer(customerId)) != [] && plotType !in PlotConfigs ==>
              r == Err(UnsupportedText(plotType))
    ensures r.Ok? <==> (exists row :: row in customers && IsCustomer(customerId)(row)) && plotType in PlotConfigs
    ensures r.Ok? ==> r.value.config == PlotConfigs[plotType]
    ensures r.Ok? ==> exists k :: (0 <= k < |customers| && IsCustomer(customerId)(customers[k])
              && (forall j :: 0 <= j < k ==> !IsCustomer(customerId)(customers[j]))
              && r.value.customerValue == Cell(customers[k], r.value.config.column))
    ensures r.Ok? ==> r.value.distribution == ColumnValues(customers, r.value.config.column)
  {
    var matches := Seqs.Filter(customers, IsCustomer(customerId));
    if matches == [] then Err(NotFoundText(customerId))
    else if plotType !in PlotConfigs then Err(UnsupportedText(plotType))
    else
      var config := PlotConfigs[plotType];
      FirstMatchIsHead(customers, IsCustomer(customerId));
      Ok(PlotPlan(config, ColumnValues(customers, config.column), Cell(matches[0], config.column), "Count of Customers"))
  }

  /** Position of the first element satisfying `p`, or `|s|` when none does. */
  function FirstMatch(s: seq<Row>, p: Row -> bool): (k: nat)
    ensures k <= |s|
    ensures forall j :: 0 <= j < k ==> !p(s[j])
    ensures k < |s| ==> p(s[k])
  {
    if s == [] then 0
    else if p(s[0]) then 0
    else 1 + FirstMatch(s[1..], p)
  }

  /** The first selected row is the first row satisfying the mask: `iloc[0]` of `df[mask]`. */
  lemma {:induction false} FirstMatchIsHead(s: seq<Row>, p: Row -> bool)
    ensures Seqs.Filter(s, p) != [] <==> FirstMatch(s, p) < |s|
    ensures Seqs.Filter(s, p) != [] ==> Seqs.Filter(s, p)[0] == s[FirstMatch(s, p)]
  {
    if s != [] && !p(s[0]) {
      FirstMatchIsHead(s[1..], p);
    }
  }

  /** The customer check comes first: an unknown customer is reported even with an unsupported plot type. */
  lemma UnknownCustomerWins(customers: seq<Row>, customerId: int, plotType: string)
    requires forall row :: row in customers ==> !IsCustomer(customerId)(row)
    ensures GenerateCustomerVisualization(customers, customerId, plotType) == Err(NotFoundText(customerId))
  {
    Seqs.FilterNone(customers, IsCustomer(customerId));
  }

  /** `get_viz_tool_definition()`. */
  function GetVizToolDefinition(): (d: ToolDefinition)
    ensures d.name == "generate_customer_visualization"
    ensures forall t :: t in AllowedValues(d, "plot_type") <==> t in PlotConfigs
    ensures AllowedValues(d, "plot_type") == PlotTypes
    ensures "customer_id" in d.properties && d.properties["customer_id"].kind == JsonInteger
    ensures d.required == ["customer_id", "plot_type"] && RequiredDeclared(d)
  {
    ToolDefinition(
      "generate_customer_visualization",
      VizToolText,
      map[
        "customer_id" := Property(JsonInteger, None, None, CustomerIdText),
        "plot_type" := Property(JsonString, Some(["avg_transaction", "frequency", "recency", "cross_border"]), None, PlotTypeText)
      ],
      ["customer_id", "plot_type"])
  }

  const VizToolText: string := "Visualizes a customer's position relative to the whole database for specific metrics."
  const CustomerIdText: string := "The unique ID of the customer."
  const PlotTypeText: string := "The metric to visualize on the X-axis."
}
