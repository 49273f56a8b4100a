# Nordic finance RAG and ETL: a Dafny model of its core

The repository cleans raw customer and transaction CSVs, adds per-customer
behavioural features (euro spend, frequency, recency, a high-ticket flag and
a cross-border count), chunks policy documents into a vector store, and
answers questions with one chat completion over the retrieved policy lines.
It also ships two tools over the gold tables: a structured query tool and a
visualisation tool. This project models the deterministic logic of those
parts and proves what they promise.

A table is a `seq<Row>`. A row is a `map<string, Value>`, and a column the
row lacks reads as null (`Frames.Cell`). A `Value` is a boolean, an
integer, an exact `real`, a text, a timestamp in seconds, or `Missing`
(pandas' NaN/NaT/None).

Modules, one per source file, plus shared ones:

- `Wrappers`, `Text`, `Seqs`, `Frames`: shared building blocks.
  - `Option` and `Result`.
  - Python's `str.strip`/`lower`/`upper`, `int()` and `float()` on text, and `str(n)`.
  - Generic filter, map, take, distinct and a stable insertion sort, each with its specification.
  - The pandas column operations the core uses: assignment, `dropna`, comparisons.
- `Extract` (`src/etl/extract.py`): the schema check.
- `Transform` (`src/etl/transform.py`): the cleaning pipeline.
  - It is written as methods that rebind a row sequence step by step, as the source rebinds `df`.
  - Each method is proved against a tracking invariant: every current row is the staged form of an admitted raw row, and every such staged form is present.
- `Features` (`src/feature_engineering/add_features.py`): the gold table.
  - Group-by aggregations, the high-ticket flag, the currency/country mismatch join and the final left join.
  - The implementation's steps are proved equal to a per-customer specification (`FeatureRow`, `CustomerFeatures`).
- `Ingest` (`src/rag/ingest.py`): `ingest_directory` as a method with its two loops.
  - It is proved to build exactly the chunk lists of a recursive specification.
  - The properties of the chunks are proved about that specification.
- `CsvAnalysis` (`src/rag/tools/csv_analysis.py`): `execute_data_analysis` as a total function over two declared tables, with its schema.
- `VizTool` (`src/rag/tools/viz_tool.py`): the lookup and error order of the visualisation tool, and its schema.
- `ToolSchema`: the JSON tool-definition shape both tools return.
- `RagLogic` (`src/rag/rag_logic.py`): `RAGOrchestrator.ask`. Retrieval and the chat engine are function parameters returning a value or an error.

What `ask` does, as modelled:

- `ask` (src/rag/rag_logic.py:101-108) makes exactly one chat call, with a
  system and a user message and no tools. There is no loop, no dispatch and
  no round budget.
- Retrieval (src/rag/rag_logic.py:33-36) runs before the `try`, so its
  failure reaches the caller (`RagLogic.Ask`).

## Model

| member | source | states |
|---|---|---|
| Extract.ValidateSchema | src/etl/extract.py:29-36 | Fails iff some expected column is absent; the error names the dataset and exactly the missing columns (expected minus present), never an empty set |
| Extract.ExtraColumnsHarmless | src/etl/extract.py:32 | Columns added before or after a valid header never make it invalid |
| Extract.OrderIrrelevant | src/etl/extract.py:32 | Validation depends only on which columns are present, not on their order |
| Extract.ExtractCustomers | src/etl/extract.py:39-42 | Succeeds iff {customer_id, country, signup_date, email} are all present, returning the read frame unchanged; otherwise the "customers" error with the missing set |
| Extract.ExtractTransactions | src/etl/extract.py:45-48 | Succeeds iff the six transaction columns are present, returning the frame unchanged; otherwise the "transactions" error with the missing set |
| Extract.CustomersWithoutEmail | src/etl/extract.py:12-17 | A customers file without `email` is refused and `email` is among the missing columns |
| Extract.SchemaErrorText | src/etl/extract.py:34-36 | The ValueError message begins with the dataset name and names every missing column in quotes; the listing order is any repetition-free order of the missing set |
| Extract.QuotedMentions | src/etl/extract.py:35 | The repr of a set of names contains each name in quotes |
| Transform.CastInt64 | src/etl/transform.py:62 | `astype('Int64')` of a cell: null stays null; integers, booleans and integral floats become the same integer; text, timestamps and fractional floats fail |
| Transform.ToDatetime | src/etl/transform.py:61 | `to_datetime(errors='coerce')` of a cell: the result is a timestamp or null; a timestamp is kept; other values become a timestamp exactly when the parser reads them |
| Transform.ToNumeric | src/etl/transform.py:88 | `to_numeric(errors='coerce')`: numbers are kept; text becomes its integer or decimal reading, or null when neither reads; the result is numeric or null |
| Transform.StrUpper | src/etl/transform.py:63 | `.str.upper()`: text is upper-cased, anything else becomes null |
| Transform.StripLower | src/etl/transform.py:35 | The result is stripped and has no upper-case letter |
| Transform.StripUpper | src/etl/transform.py:49-50 | The result is stripped and has no lower-case letter |
| Transform.CleanCategory | src/etl/transform.py:35-36 | Null or "unknown" (after strip/lower) becomes "uncategorized"; other text becomes its stripped lower-case form; a text result is never "unknown" |
| Transform.ImputeCurrency | src/etl/transform.py:46-51 | Null becomes "DKK"; text becomes its stripped upper-case form |
| Transform.CategoryRow | src/etl/transform.py:33-36 | `is_category_imputed` is set iff the category is null or reads "unknown"; the category is cleaned; no other column changes |
| Transform.CurrencyRow | src/etl/transform.py:44-51 | `is_currency_imputed` is set iff the currency is null; the currency is imputed and normalised; no other column changes |
| Transform.HandleCategoryCleaning | src/etl/transform.py:28-38 | Same length; every row is its category rewrite; every text or null category comes out stripped, lower-case and never "unknown" |
| Transform.CategoryRowsClean | src/etl/transform.py:35-36 | After category cleaning, every text or null category is stripped, lower-case and not "unknown" |
| Transform.HandleCurrencyImputation | src/etl/transform.py:40-53 | Same length; the flag is true iff the currency was null; null becomes "DKK"; text is stripped and upper-cased |
| Transform.CurrencyRowsClean | src/etl/transform.py:44-51 | The four currency facts hold at every index of the rewritten table |
| Transform.FirstCastError | src/etl/transform.py:85-86 | No error iff every cell of the column casts |
| Transform.CastColumn | src/etl/transform.py:85-86 | The cast succeeds iff every cell casts, and then rewrites exactly that column of every row |
| Transform.CastIds | src/etl/transform.py:85-86 | Both id columns are cast and nothing else changes |
| Transform.CleanRow | src/etl/transform.py:85-112 | The output row of a surviving raw row: currency upper-cased then imputed, its flag, and the earlier stages' other columns |
| Transform.TxBeforeIsPreorder | src/etl/transform.py:117 | The (customer_id, timestamp) sort order is total and transitive |
| Transform.CleanRowKeys | src/etl/transform.py:80-104 | A kept row with castable ids comes out with an integer customer id, a timestamp and a positive amount |
| Transform.CleanRowCategory | src/etl/transform.py:111 | The output category and its flag are those of the raw category |
| Transform.UppercasedCategory | src/etl/transform.py:85-100 | The type conversions and the currency upper-casing leave the category alone |
| Transform.CleanRowLabels | src/etl/transform.py:111-112 | Category and currency of an output row are normalised, with both flags present |
| Transform.CleanRowIsClean | src/etl/transform.py:70-112 | A kept raw row with castable ids becomes a clean transaction |
| Transform.DropUnusable | src/etl/transform.py:73-82 | After dedup and `dropna(customer_id)`: the first copy of every distinct raw row that has a customer id, each exactly once, in first-occurrence order |
| Transform.StagedMembers | src/etl/transform.py:73-106 | A stage's rows are the images of the admitted raw rows, and every such image occurs |
| Transform.TracksFilter | src/etl/transform.py:79 | A `dropna`/mask step on a tracked table is the same stage with the admission test narrowed, row for row |
| Transform.TracksMap | src/etl/transform.py:87-99 | A column assignment on a tracked table is the same admitted rows with the stage extended, row for row |
| Transform.CastIdentifiers | src/etl/transform.py:84-86 | Fails iff some row has an uncastable id; otherwise every row is its id cast, same length |
| Transform.CastFailureTracked | src/etl/transform.py:80-86 | After step 2, an uncastable id exists iff some raw row with a customer id has one |
| Transform.ConvertAndFilter | src/etl/transform.py:87-106 | Parsing, dropping unreadable rows, upper-casing the currency and dropping non-positive amounts leave, row for row and in order, one staged row per distinct raw row that passes every filter |
| Transform.TracksCategory | src/etl/transform.py:111 | Category cleaning keeps the tracked rows, each with its category cleaned |
| Transform.TracksCurrency | src/etl/transform.py:112 | Currency imputation keeps the tracked rows, each with its currency filled |
| Transform.NormaliseAndSort | src/etl/transform.py:108-120 | Sorted by (customer_id, timestamp) and a permutation of its input with category and currency normalised; as a multiset, one clean form per distinct kept raw row |
| Transform.TrackedRowsClean | src/etl/transform.py:70-123 | Every row the pipeline returns is a clean transaction |
| Transform.TransformTransactions | src/etl/transform.py:68-123 | Fails iff some raw row with a customer id has an uncastable id. Otherwise: as a multiset, exactly one cleaned row per distinct raw row that passes every filter (copies counted); sorted by (customer_id, timestamp); every row clean (integer id, timestamp, positive amount, normalised labels, flags) |
| Transform.PipelineOutput | src/etl/transform.py:68-123 | Any ordering of the final stage has no more rows than the distinct input, all of them clean |
| Transform.PipelineRows | src/etl/transform.py:68-123 | Any ordering of the final stage holds the cleaned form of every kept raw row and nothing else |
| Transform.CleanCustomer | src/etl/transform.py:61-63 | signup_date parsed or null, customer_id cast, country upper-cased; no other column changes |
| Transform.SignupKeepsIds | src/etl/transform.py:61-62 | Parsing signup dates does not change which ids fail the cast |
| Transform.TransformCustomers | src/etl/transform.py:57-66 | Fails iff some customer id cannot be cast; otherwise exactly the raw rows with an id, in order, each rewritten by `CleanCustomer` |
| Transform.CustomersClean | src/etl/transform.py:61-64 | Every returned customer has an integer id, a timestamp or null signup date, and a country without lower-case letters |
| Transform.UnreadableSignupKept | src/etl/transform.py:61-64 | A customer whose signup date cannot be parsed is kept, with a null date |
| Features.Rate | src/feature_engineering/add_features.py:34 | The rate is the table's rate for a listed currency and 1.0 otherwise, always positive |
| Features.AmountEur | src/feature_engineering/add_features.py:34-35 | `amount_eur` is amount times rate, and null exactly when the amount is not a number |
| Features.AmountEurKeepsSign | src/feature_engineering/add_features.py:35 | The euro amount is positive iff the amount is |
| Features.UnlistedCurrencyAtPar | src/feature_engineering/add_features.py:34 | A currency outside the rate table converts at 1.0 |
| Features.ParseTimestamp | src/feature_engineering/add_features.py:30 | `to_datetime` without coercion: null and timestamps pass, other values succeed iff the parser reads them |
| Features.ParseTimestamps | src/feature_engineering/add_features.py:29-30 | Succeeds iff every timestamp parses; then same length, each row's timestamp replaced by its parse |
| Features.Group | src/feature_engineering/add_features.py:15 | A customer's group holds exactly the rows carrying that id |
| Features.GroupKeys | src/feature_engineering/add_features.py:15 | The group keys are exactly the non-null ids that occur |
| Features.CountPresent | src/feature_engineering/add_features.py:18 | `count` is the number of non-null cells |
| Features.MeanColumn | src/feature_engineering/add_features.py:17 | `mean` is a number or null |
| Features.LatestTime | src/feature_engineering/add_features.py:19 | `max` of the timestamps: none iff no timestamp; otherwise some row's timestamp, and no timestamp exceeds it |
| Features.LatestTimeOfPart | src/feature_engineering/add_features.py:31 | The latest time of a part never exceeds the latest time of the whole |
| Features.Recency | src/feature_engineering/add_features.py:21 | `.dt.days` of snapshot minus last date: null iff either is missing, otherwise the floor of the difference in days |
| Features.MetricsRow | src/feature_engineering/add_features.py:13-22 | A base-metrics row has exactly the id and the five metric columns |
| Features.BaseMetricsCells | src/feature_engineering/add_features.py:13-22 | The five metric cells are the group's sum, mean, count, latest timestamp and recency |
| Features.UnknownCountryMismatches | src/feature_engineering/add_features.py:46 | A country outside FI/SE/NO/DK mismatches every currency |
| Features.HomeCurrencyMatches | src/feature_engineering/add_features.py:46 | A Nordic country's home currency never mismatches |
| Features.MarkedJoinIsMarked | src/feature_engineering/add_features.py:45-46 | Marking the inner join row by row equals building it transaction by transaction with marks |
| Features.GroupAppend | src/feature_engineering/add_features.py:47 | Grouping and the mismatch sum distribute over concatenation |
| Features.PieceGroup | src/feature_engineering/add_features.py:45 | A transaction's join rows lie wholly in its own customer's group |
| Features.PieceMismatches | src/feature_engineering/add_features.py:46 | A transaction's marked join rows are its customer rows whose country mismatches its currency |
| Features.JoinMismatchCount | src/feature_engineering/add_features.py:45-47 | A customer's `is_mismatch` sum over the join is the count of (transaction, customer row) pairs that mismatch |
| Features.JoinGroupNonEmpty | src/feature_engineering/add_features.py:45-48 | A customer has join rows iff it has both transactions and customer rows |
| Features.FeatureRow | src/feature_engineering/add_features.py:38-48 | A gold row has exactly the id and the seven feature columns |
| Features.FeatureRowKeepsBase | src/feature_engineering/add_features.py:42-48 | Adding the two flags leaves the base metrics unchanged |
| Features.FeatureRowTotals | src/feature_engineering/add_features.py:16-18 | total_spend_eur, avg_transaction_value and transaction_frequency are the group's sum, mean and count |
| Features.FeatureRowDates | src/feature_engineering/add_features.py:19-21 | last_tx_date is the group's latest timestamp; recency_days is measured from the snapshot |
| Features.FeatureRowFlags | src/feature_engineering/add_features.py:41-48 | high_ticket_user is whether the group has a high-ticket row; cross_border_count is the pairwise mismatch count, or null without a customer row |
| Features.CustomerFeatures | src/feature_engineering/add_features.py:51 | A customer with transactions gets its feature row; one without gets null features; its own columns are kept |
| Features.WithAmountEur | src/feature_engineering/add_features.py:34-35 | Same length, each row gains its euro amount |
| Features.LatestTimeSameTimestamps | src/feature_engineering/add_features.py:31-35 | Adding amount_eur does not move the snapshot |
| Features.CrossBorderMerge | src/feature_engineering/add_features.py:45-48 | A customer appears in the count table iff it has a customer row, and then its count is the specified one |
| Features.HighTicketMerge | src/feature_engineering/add_features.py:41-42 | `isin(high_ticket_ids)` agrees with "the group has a transaction above 500" |
| Features.FeatureRowFrom | src/feature_engineering/add_features.py:38-48 | Base metrics with the specified flags written over them are the feature row |
| Features.GoldRow | src/feature_engineering/add_features.py:38-48 | The row the implementation builds for a customer is its specified feature row |
| Features.LeftJoinMatches | src/feature_engineering/add_features.py:51 | The final left join of a customer against the gold table is its specified row |
| Features.BaseTable | src/feature_engineering/add_features.py:38 | One base-metrics row per group key |
| Features.HighTicketIds | src/feature_engineering/add_features.py:41 | An id is listed iff it has a transaction whose euro amount exceeds 500 |
| Features.HighTicketColumn | src/feature_engineering/add_features.py:42 | Each gold key gets whether it is a high-ticket id |
| Features.CrossBorderColumn | src/feature_engineering/add_features.py:47-48 | Each gold key gets its mismatch sum when it is a key of the join, null otherwise |
| Features.MismatchAssigned | src/feature_engineering/add_features.py:46 | Assigning `is_mismatch` is marking every row |
| Features.WithColumn | src/feature_engineering/add_features.py:42 | Writing a column keeps the table's keys and rewrites each row's column |
| Features.GoldFeatures | src/feature_engineering/add_features.py:38-48 | The gold table has one row per customer id with transactions, each equal to its specified feature row |
| Features.RunFeatureEngineering | src/feature_engineering/add_features.py:24-51 | Fails iff some timestamp cannot be parsed. Otherwise one row per customer row, in order, each its specified features. The input is a value, so it is not mutated |
| Features.FeaturesIffTransactions | src/feature_engineering/add_features.py:48-51 | A customer has a transaction count iff it has a non-null id with transactions; otherwise every feature is null |
| Features.CountAllPresent | src/feature_engineering/add_features.py:18 | Without nulls, `count` is the number of rows |
| Features.CustomerAggregates | src/feature_engineering/add_features.py:15-18 | Frequency is the number of the customer's transactions, spend their euro sum, average the sum over the count |
| Features.LastTransactionIsLatest | src/feature_engineering/add_features.py:19 | last_tx_date is one of the customer's timestamps and no timestamp of theirs is later |
| Features.RecencyNonNegative | src/feature_engineering/add_features.py:21-31 | recency_days is null or at least 0, since the snapshot is the latest timestamp overall |
| Features.GroupHighTicket | src/feature_engineering/add_features.py:41 | A group has a high-ticket row iff the table has one with that id |
| Features.HighTicketIff | src/feature_engineering/add_features.py:41-42 | high_ticket_user is true iff one of the customer's transactions exceeds 500 euros |
| Features.MismatchCountSingle | src/feature_engineering/add_features.py:45-47 | With one customer row, the count is the number of transactions not in that country's home currency |
| Features.CrossBorderOfCustomer | src/feature_engineering/add_features.py:45-47 | A customer with one row gets the count of its transactions in a foreign currency; for a non-Nordic country, all of them |
| Ingest.StrippedLines | src/rag/ingest.py:27 | No more lines than the file; every kept line is non-empty and stripped |
| Ingest.StrippedLinesExact | src/rag/ingest.py:27 | Every non-blank line's stripped form is kept, and every kept line is the stripped form of a non-blank line |
| Ingest.EntryChunks | src/rag/ingest.py:24-31 | A non-.txt file gives no chunks; every chunk of a file has that file as its source |
| Ingest.LineChunks | src/rag/ingest.py:29-31 | One chunk per line, in order, with the file as source |
| Ingest.Documents | src/rag/ingest.py:30 | The documents list is the chunks' texts, in order |
| Ingest.Metadatas | src/rag/ingest.py:31 | The metadata list is `{"source": filename}` of each chunk, in order |
| Ingest.Ids | src/rag/ingest.py:32 | The ids are "id_0" … "id_{n-1}" |
| Ingest.IngestDirectory | src/rag/ingest.py:16-33 | The three lists built by the loops are exactly the documents, metadatas and ids of the listing's chunks |
| Ingest.AddLines | src/rag/ingest.py:29-33 | The inner loop appends one entry per line to each list and advances the counter by the number of lines |
| Ingest.ChunksAppend | src/rag/ingest.py:23-29 | Chunks follow listing order: the chunks of a concatenated listing are the concatenated chunks |
| Ingest.OnlyTextFiles | src/rag/ingest.py:24 | Removing the non-.txt files from the listing changes nothing |
| Ingest.ChunksComeFromTextFiles | src/rag/ingest.py:24-31 | Every chunk is a non-empty stripped line of a .txt file in the listing, and its source is that file |
| Ingest.EveryLineIngested | src/rag/ingest.py:27-31 | Every non-blank line of every .txt file yields its stripped chunk |
| Ingest.IdsUnique | src/rag/ingest.py:32 | The ids are pairwise distinct |
| Ingest.StrippedLinesCount | src/rag/ingest.py:27 | A file yields exactly as many chunks as it has non-blank lines |
| Ingest.ChunkCount | src/rag/ingest.py:18-33 | documents, metadatas and ids have equal length, the number of non-blank lines across the .txt files |
| RagLogic.NewOrchestrator | src/rag/rag_logic.py:24-27 | The orchestrator uses "mistral-small-latest" and keeps the gold summary |
| RagLogic.SearchRequest | src/rag/rag_logic.py:33-36 | Retrieval asks for the user's query alone, with 3 results |
| RagLogic.Split | src/rag/rag_logic.py:40 | Splitting gives at least one piece and no piece holds the separator |
| RagLogic.SplitJoin | src/rag/rag_logic.py:40 | The policy context keeps the documents recoverable: splitting it on newlines gives back the documents when none holds a newline |
| RagLogic.JoinLength | src/rag/rag_logic.py:40 | The joined context's length is the documents' total plus one separator between each pair |
| RagLogic.Snippet | src/rag/rag_logic.py:44 | The snippet is a prefix of at most 50 characters of the document followed by "...", appended even to short documents |
| RagLogic.SourceRows | src/rag/rag_logic.py:43-46 | Fails with KeyError iff a zipped metadata lacks "source"; otherwise one row per zipped pair, in order, with Source and Content Snippet |
| RagLogic.OneRowPerDocument | src/rag/rag_logic.py:43-46 | With one metadata per document, the source table has a row per document with its source and snippet |
| RagLogic.SystemPrompt | src/rag/rag_logic.py:50-65 | The prompt holds the policy context and the gold summary at their places in the template |
| RagLogic.ChatFor | src/rag/rag_logic.py:101-108 | One request: the configured model, temperature 0.1, a system message with the context, then the user's query |
| RagLogic.ErrorBundle | src/rag/rag_logic.py:115-116 | The answer is "Error: " followed by the message; sources and metadata are empty |
| RagLogic.AnswerBundle | src/rag/rag_logic.py:110-114 | The answer is the reply; the metadata is exactly Model and Sources Found = number of documents |
| RagLogic.Ask | src/rag/rag_logic.py:29-116 | A retrieval failure propagates to the caller; otherwise the answer is built from the retrieved results |
| RagLogic.Answer | src/rag/rag_logic.py:37-116 | Empty result lists raise IndexError; otherwise the result is an error iff some zipped metadata lacks its source, and that error is the KeyError; when it succeeds, an engine failure gives the error bundle and a reply gives exactly the answer bundle: the reply, the source rows, and metadata of only Model (the configured model) and Sources Found (the document count) |
| RagLogic.BundlesDistinct | src/rag/rag_logic.py:110-116 | A bundle carries "Model" in its metadata iff the completion succeeded |
| CsvAnalysis.MessageKinds | src/rag/tools/csv_analysis.py:19-57 | Column, analysis-error and no-records messages are told apart by their prefixes |
| CsvAnalysis.Coerce | src/rag/tools/csv_analysis.py:30-39 | bool: `value.lower() == "true"` on text, an error on None; int/float: succeeds iff the text reads as one, with that number as the literal; object: `str(value)` |
| CsvAnalysis.SelectRows | src/rag/tools/csv_analysis.py:43-49 | Boolean-mask selection succeeds iff no row's test raises, and then keeps exactly the passing rows, in order |
| CsvAnalysis.FilterQuery | src/rag/tools/csv_analysis.py:30-49 | Succeeds iff the literal converts, the operator is one of the four and no row's comparison raises; then exactly the rows whose comparison holds, in table order (a sub-multiset of the table); a conversion failure is reported as such |
| CsvAnalysis.RanksBeforeIsPreorder | src/rag/tools/csv_analysis.py:24 | The descending rank order is total and transitive |
| CsvAnalysis.Ranking | src/rag/tools/csv_analysis.py:24 | The full ranking is a permutation of the table: ranked rows sorted descending first, then the unranked rows |
| CsvAnalysis.RankingOrder | src/rag/tools/csv_analysis.py:24 | Any prefix of the ranking has ranked rows first, in descending order |
| CsvAnalysis.RankingLargest | src/rag/tools/csv_analysis.py:24 | No ranked row left out of a prefix exceeds a ranked row in it |
| CsvAnalysis.TopRows | src/rag/tools/csv_analysis.py:24 | `nlargest(n)`: min(n, rows) rows taken from the table, all of it when n covers it, descending, none omitted larger, and a row without a number only after every ranked row |
| CsvAnalysis.RankingNullsLast | src/rag/tools/csv_analysis.py:24 | A prefix of the ranking holds a row without a number only at or after position `k`, the number of ranked rows |
| CsvAnalysis.FilterReply | src/rag/tools/csv_analysis.py:28-57 | The query's error becomes the analysis error, no rows the no-records message, otherwise the first ten of the query's rows; so between 1 and 10 rows of the table, never None |
| CsvAnalysis.TopNReply | src/rag/tools/csv_analysis.py:23-25 | top_n gives an analysis error or at most n rows of the table |
| CsvAnalysis.ExecuteDataAnalysis | src/rag/tools/csv_analysis.py:15-57 | A missing column gives exactly the column message; None iff the query type is neither filter nor top_n; every message is of exactly one kind; rendered rows come from the selected table; a filter renders 1 to 10 rows and top_n at most n |
| CsvAnalysis.FilterIntEquality | src/rag/tools/csv_analysis.py:34-54 | `==` on an int column returns exactly the first ten rows equal to `int(value)`, in order, or the no-records message |
| CsvAnalysis.LookupSingleCustomer | src/rag/tools/csv_analysis.py:42-54 | Filtering customer_id == s, where `int(s)` is an id exactly one row carries, yields exactly that customer's row |
| CsvAnalysis.SingleMatch | src/rag/tools/csv_analysis.py:43 | On an integer column, `== i` selects the one row holding `i` |
| CsvAnalysis.NumericQuery | src/rag/tools/csv_analysis.py:30-47 | On a typed int or float column, `==`, `>` and `<` never raise and keep the rows whose number compares so with the literal |
| CsvAnalysis.FilterNumeric | src/rag/tools/csv_analysis.py:28-54 | `==`, `>` or `<` on an int or float column returns the first ten rows whose number compares so with the converted literal, in order (nulls never), or the no-records message |
| CsvAnalysis.BoolFilterNeverFails | src/rag/tools/csv_analysis.py:32-33 | On a boolean column any literal is accepted: rows or the no-records message, never an error |
| CsvAnalysis.ContainsCoercesFirst | src/rag/tools/csv_analysis.py:34-49 | `contains` on an int column with a non-integer literal is an analysis error |
| CsvAnalysis.ContainsIgnoresCase | src/rag/tools/csv_analysis.py:48-54 | On a text column `contains` keeps the rows whose text contains the literal ignoring case |
| CsvAnalysis.UnsupportedOperatorFails | src/rag/tools/csv_analysis.py:41-57 | An operator outside the four gives an analysis error once the literal converts |
| CsvAnalysis.TopNRanksLargest | src/rag/tools/csv_analysis.py:23-25 | top_n on a numeric column renders min(n, rows) rows in descending order, with no larger row left out and rows without a number only after every ranked row |
| CsvAnalysis.TopNOnTextFails | src/rag/tools/csv_analysis.py:23-25 | top_n on a text column is an analysis error |
| CsvAnalysis.GetCsvToolDefinition | src/rag/tools/csv_analysis.py:59-105 | The schema's enums are the two query types, the two tables and the four operators; n defaults to 5; query_type, table_name and column are required and declared |
| VizTool.ColumnValues | src/rag/tools/viz_tool.py:48 | The plotted distribution is the column's value in every customer row |
| VizTool.GenerateCustomerVisualization | src/rag/tools/viz_tool.py:9-53 | Unknown customer: "not found"; then an unsupported plot type; otherwise the type's fixed config and the column value of the first matching row |
| VizTool.FirstMatch | src/rag/tools/viz_tool.py:51 | The index of the first row that matches, or the length when none does |
| VizTool.FirstMatchIsHead | src/rag/tools/viz_tool.py:14-51 | The filtered frame is non-empty iff there is a first match, and its first row is that match |
| VizTool.UnknownCustomerWins | src/rag/tools/viz_tool.py:14-44 | An unknown customer reports "not found" whatever the plot type |
| VizTool.GetVizToolDefinition | src/rag/tools/viz_tool.py:67-87 | plot_type's enum equals the config keys; customer_id is an integer; both are required and declared |

## Left out

- I/O is left out, and each omitted step's effect becomes a parameter:
  - reading CSVs and the module-level table loads: tables are parameters;
  - the `save_dataframe` calls;
  - the directory listing and file reads: the listing is a parameter;
  - `collection.add` and `collection.query`: retrieval is a function parameter;
  - the Mistral, OpenAI and Gemini clients: the engine is a function parameter;
  - logging and `print`.
- The Streamlit app, the result card, `src/rag/rag.py`, `get_gold_data_summary` and the pipeline scripts are not part of this model.
- Matplotlib and seaborn drawing (src/rag/tools/viz_tool.py:47-63): the model returns what would be drawn (the config, the distribution and the customer's value).
- `to_string` rendering of result frames: a rendered reply carries the rows themselves.
- `pd.to_datetime` format parsing is a parameter `parseTime: Value -> Option<int>`. Timestamps are whole seconds.
- dtype inference from CSV: the query tool's tables carry a declared dtype per column.
- Floating point: amounts and rates are exact reals, so no rounding of exchange-rate products is modelled.
- `int()`/`float()` on text: sign, digits and decimal point only. Exponents, "inf"/"nan", underscores and Unicode digits are not read.
- Case mapping is ASCII only; Unicode case folding is not modelled.
- `str.contains` is modelled as a plain substring test, not a regular expression.
- Exception messages raised by pandas and Python are approximated. The messages the source writes itself are exact.
- `nlargest` on equal values: the model's sort is stable, so ties keep table order, but no contract states the order among equal values or among rows without a number. That such rows come only after every ranked row is stated (`CsvAnalysis.TopRows`).
- `reset_index(drop=True)` has no counterpart: a sequence is already indexed 0..n-1.
- Group-by and set orders: groups are keyed maps. `SchemaErrorText` takes the iteration order of the missing set as a parameter.
- Group and join keys are compared as values: an id held as `VInt(5)` and one held as `VNum(5.0)` are different keys here, where pandas would unify them. The cleaning stage casts ids to `VInt`, so the gold stage sees integers.
- Duplicate customer rows: the inner join repeats a transaction once per matching customer row, so such a customer's cross-border count is multiplied. This is modelled as written (`Features.JoinMismatchCount`).
- Transform.NormaliseAndSort: the contract states sorted and a permutation; the relative order of rows with equal (customer_id, timestamp) is not stated, although the model's insertion sort keeps them in their prior order. The same holds for `TransformTransactions`, whose rows are stated as a multiset.
- Transform.StrUpper: the `.str` accessor works cell by cell here, and a cell that is not text becomes null. pandas refuses `.str` with an AttributeError on a whole column that `read_csv` typed as numbers, or as float64 because every cell is empty. The model does not raise in that case. The affected steps are:
  - the category rewrite in `Transform.HandleCategoryCleaning` (src/etl/transform.py:33-35);
  - the currency rewrite in `Transform.HandleCurrencyImputation` (:49-50);
  - the currency step of `Transform.ConvertAndFilter` (:100);
  - the country step of `Transform.CleanCustomer` (:63).

  So `TransformTransactions` and `TransformCustomers` do not report that failure. For example, an all-empty currency column comes out as "DKK" with `is_currency_imputed` set, where the source raises. Column dtypes are not part of the cleaning model.
- VizTool.GenerateCustomerVisualization: here a metric column missing from the customers table reads as nulls, where `CUST_DF[...]` raises KeyError (src/rag/tools/viz_tool.py:48). The gold customers table always carries these columns (`Features.FeatureRow`).
- Extract.SchemaErrorText: the model always uses single quotes. Python's set repr puts a name that contains `'` in double quotes.
- Rows are maps. Through `Cell`, a row that lacks a column reads the same as one holding null there. `Seqs.Distinct` (`drop_duplicates`) still tells the two apart, where pandas does not. The frames here are rectangular (every row has the same columns), so the difference never arises.
- Ingest.AddLines: the inner `for line in lines` loop is a separate method so that each loop carries its own invariant.
- RagLogic.SourceRows: `zip` stops at the shorter list, as in Python. Errors from `ask` that are exceptions in Python are `Err` strings here.
