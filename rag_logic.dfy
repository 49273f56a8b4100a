/**
 * The answer pipeline of the orchestrator: retrieve the three policy chunks
 * closest to the question, join them into the policy context, tabulate their
 * sources, build the system prompt from the context and the data summary,
 * make one chat completion, and bundle the answer with its sources and
 * metadata. The vector store and the chat engine are parameters returning a
 * value or a failure.
 */
module RagLogic {
  import opened Wrappers
  import opened Text
  import Seqs

  /** The fields `__init__` sets once: the chat model and the data summary. */
  datatype Orchestrator = Orchestrator(model: string, goldSummary: string)

  const ChatModel: string := "mistral-small-latest"

  /** `RAGOrchestrator()`, given the summary `get_gold_data_summary()` produced. */
  function NewOrchestrator(goldSummary: string): (o: Orchestrator)
    ensures o.model == ChatModel && o.goldSummary == goldSummary
  {
    Orchestrator(ChatModel, goldSummary)
  }

  /** The arguments of `collection.query`. */
  datatype QueryRequest = QueryRequest(queryTexts: seq<string>, nResults: nat)

  /** What `collection.query` returns: one list of documents and one of metadatas per query text. */
  datatype QueryResult = QueryResult(documents: seq<seq<string>>, metadatas: seq<seq<map<string, string>>>)

  datatype Message = Message(role: string, content: string)

  /** The arguments of `chat.complete`: model, messages and temperature; no tool schemas. */
  datatype ChatRequest = ChatRequest(model: string, messages: seq<Message>, temperature: real)

  /** A metadata value: the model name or the number of sources. */
  datatype MetaValue = MetaText(text: string) | MetaCount(count: nat)

  /** The dictionary `ask` returns. */
  datatype Bundle = Bundle(answer: string, sourceData: seq<map<string, string>>, metadata: map<string, MetaValue>)

  const IndexErrorText: string := "IndexError: list index out of range"
  const MissingSourceText: string := "KeyError: 'source'"

  /** The search made for a question: that question alone, three results. */
  function SearchRequest(userQuery: string): (q: QueryRequest)
    ensures q.queryTexts == [userQuery] && q.nResults == 3
  {
    QueryRequest([userQuery], 3)
  }

  /** `sep.join(items)`. */
  function Join(items: seq<string>, sep: char): (r: string)
  {
    if items == [] then []
    else if |items| == 1 then items[0]
    else items[0] + [sep] + Join(items[1..], sep)
  }

  /** `s.split(sep)`: the pieces between separators, at least one. */
  function Split(s: string, sep: char): (r: seq<string>)
    ensures |r| >= 1
    ensures forall k :: 0 <= k < |r| ==> sep !in r[k]
    decreases |s|
  {
    match IndexOf(s, sep)
    case None => [s]
    case Some(i) => [s[..i]] + Split(s[i + 1..], sep)
  }

  /**
   * Joining non-empty documents that contain no newline is undone by splitting
   * at newlines: the policy context holds every document, whole and in order.
   */
  lemma {:induction false} SplitJoin(items: seq<string>, sep: char)
    requires items != []
    requires forall k :: 0 <= k < |items| ==> sep !in items[k]
    ensures Split(Join(items, sep), sep) == items
  {
    if |items| == 1 {
      assert IndexOf(items[0], sep).None?;
    } else {
      var rest := Join(items[1..], sep);
      var s := items[0] + [sep] + rest;
      IndexOfFirst(s, sep, |items[0]|);
      assert s[..|items[0]|] == items[0];
      assert s[|items[0]| + 1..] == rest;
      SplitJoin(items[1..], sep);
    }
  }

  /** `IndexOf` finds a separator that nothing before it matches. */
  lemma {:induction false} IndexOfFirst(s: string, c: char, i: nat)
    requires i < |s| && s[i] == c
    requires forall j :: 0 <= j < i ==> s[j] != c
    ensures IndexOf(s, c) == Some(i)
  {
    if i > 0 {
      IndexOfFirst(s[1..], c, i - 1);
    }
  }

  /** The context is as long as the documents plus one newline between each two. */
  lemma {:induction false} JoinLength(items: seq<string>, sep: char)
    requires items != []
    ensures |Join(items, sep)| == TotalLength(items) + |items| - 1
  {
    if |items| > 1 {
      JoinLength(items[1..], sep);
    }
  }

  function TotalLength(items: seq<string>): nat {
    if items == [] then 0 else |items[0]| + TotalLength(items[1..])
  }

  /** `d[:50] + "..."`: the first 50 characters, with the ellipsis added even to shorter documents. */
  function Snippet(d: string): (s: string)
    ensures |s| <= 53 && |s| >= 3
    ensures s[|s| - 3..] == "..."
    ensures s[..|s| - 3] <= d
    ensures |d| <= 50 ==> s == d + "..."
    ensures |d| > 50 ==> |s| == 53
  {
    Seqs.Take(d, 50) + "..."
  }

  function SourceRow(m: map<string, string>, d: string): map<string, string>
    requires "source" in m
  {
    map["Source" := m["source"], "Content Snippet" := Snippet(d)]
  }

  /**
   * `[{"Source": m['source'], "Content Snippet": d[:50] + "..."} for m, d in
   * zip(metadatas, documents)]`: pairs up to the shorter list; a metadata
   * without a source raises KeyError.
   */
  function SourceRows(metadatas: seq<map<string, string>>, documents: seq<string>): (r: Result<seq<map<string, string>>>)
    ensures r.Ok? <==> forall k :: 0 <= k < |metadatas| && k < |documents| ==> "source" in metadatas[k]
    ensures r.Err? ==> r.error == MissingSourceText
    ensures r.Ok? ==> |r.value| == (if |metadatas| < |documents| then |metadatas| else |documents|)
    ensures r.Ok? ==> forall k :: 0 <= k < |r.value| ==>
      r.value[k] == map["Source" := metadatas[k]["source"], "Content Snippet" := Snippet(documents[k])]
  {
    if metadatas == [] || documents == [] then Ok([])
    else if "source" !in metadatas[0] then Err(MissingSourceText)
    else match SourceRows(metadatas[1..], documents[1..])
      case Err(e) => Err(e)
      case Ok(rest) => Ok([SourceRow(metadatas[0], documents[0])] + rest)
  }

  /** The system prompt: the policy context and the data summary inside fixed instructions. */
  function SystemPrompt(policyContext: string, goldSummary: string): (p: string)
    ensures OccursAt(policyContext, p, |PromptHead|)
    ensures OccursAt(goldSummary, p, |PromptHead| + |policyContext| + |PromptMiddle|)
  {
    var p := PromptHead + policyContext + PromptMiddle + goldSummary + PromptTail;
    assert p[|PromptHead|..][..|policyContext|] == policyContext;
    assert p[|PromptHead| + |policyContext| + |PromptMiddle|..][..|goldSummary|] == goldSummary;
    p
  }

  const PromptHead: string :=
    "\n        You are an AI Data Assistant for a Nordic financial firm. \n"
    + "        You have access to two main knowledge sources:\n"
    + "        \n"
    + "        1. POLICY DOCUMENTS (Unstructured):\n"
    + "        "
  const PromptMiddle: string :=
    "\n        \n"
    + "        2. CUSTOMER DATA SUMMARY (Structured):\n"
    + "        "
  const PromptTail: string :=
    "\n        \n"
    + "        INSTRUCTIONS:\n"
    + "        - If the user asks about a policy, cite the documents.\n"
    + "        - If the user asks about customer metrics or statistics, use the data summary.\n"
    + "        - If the user asks for a 'table' or 'summary', format your response clearly using Markdown.\n"
    + "        - Be concise and professional.\n"
    + "        "

  /** The one chat call: the configured model, a system and a user message, temperature 0.1. */
  function ChatFor(o: Orchestrator, userQuery: string, policyContext: string): (c: ChatRequest)
    ensures c.model == o.model && c.temperature == 0.1
    ensures |c.messages| == 2
    ensures c.messages[0].role == "system" && c.messages[1] == Message("user", userQuery)
    ensures OccursAt(policyContext, c.messages[0].content, |PromptHead|)
  {
    ChatRequest(o.model, [Message("system", SystemPrompt(policyContext, o.goldSummary)), Message("user", userQuery)], 0.1)
  }

  /** The bundle for a failed completion: the error text, no sources, no metadata. */
  function ErrorBundle(message: string): (b: Bundle)
    ensures |b.answer| == 7 + |message| && b.answer[..7] == "Error: " && b.answer[7..] == message
    ensures b.sourceData == [] && b.metadata == map[]
  {
    Bundle("Error: " + message, [], map[])
  }

  /** The answer the completion's content gets, with its sources and metadata. */
  function AnswerBundle(o: Orchestrator, answer: string, rows: seq<map<string, string>>, documents: seq<string>): (b: Bundle)
    ensures b.answer == answer && b.sourceData == rows
    ensures b.metadata.Keys == {"Model", "Sources Found"}
    ensures b.metadata["Model"] == MetaText(o.model) && b.metadata["Sources Found"] == MetaCount(|documents|)
  {
    Bundle(answer, rows, map["Model" := MetaText(o.model), "Sources Found" := MetaCount(|documents|)])
  }

  /**
   * `ask(user_query)`. A failure of the search is not caught and comes back
   * as `Err`; so does everything else that happens before the `try`.
   */
  function Ask(o: Orchestrator, userQuery: string,
               retrieve: QueryRequest -> Result<QueryResult>,
               complete: ChatRequest -> Result<string>): (r: Result<Bundle>)
    ensures retrieve(SearchRequest(userQuery)).Err? ==> r == Err(retrieve(SearchRequest(userQuery)).error)
    ensures retrieve(SearchRequest(userQuery)).Ok? ==> r == Answer(o, userQuery, retrieve(SearchRequest(userQuery)).value, complete)
  {
    match retrieve(SearchRequest(userQuery))
    case Err(e) => Err(e)
    case Ok(found) => Answer(o, userQuery, found, complete)
  }

  /**
   * The rest of `ask` once the search has returned `found`: `[0]` of its two
   * lists and the source table can still raise; the completion's failure is
   * caught and becomes the error bundle.
   */
  function Answer(o: Orchestrator, userQuery: string, found: QueryResult,
                  complete: ChatRequest -> Result<string>): (r: Result<Bundle>)
    ensures found.documents == [] || found.metadatas == [] ==> r == Err(IndexErrorText)
    ensures found.documents != [] && found.metadatas != [] ==>
      (r.Err? <==> exists k :: 0 <= k < |found.metadatas[0]| && k < |found.documents[0]| && "source" !in found.metadatas[0][k])
    ensures found.documents != [] && found.metadatas != [] && r.Err? ==> r.error == MissingSourceText
    ensures r.Ok? ==>
      found.documents != [] && found.metadatas != [] && SourceRows(found.metadatas[0], found.documents[0]).Ok?
    ensures r.Ok? ==>
      var request := ChatFor(o, userQuery, Join(found.documents[0], '\n'));
      (complete(request).Err? ==> r.value == ErrorBundle(complete(request).error)) &&
      (complete(request).Ok? ==>
        r.value == AnswerBundle(o, complete(request).value,
                                SourceRows(found.metadatas[0], found.documents[0]).value, found.documents[0]))
  {
    if found.documents == [] || found.metadatas == [] then Err(IndexErrorText)
    else
      var documents := found.documents[0];
      var metadatas := found.metadatas[0];
      var policyContext := Join(documents, '\n');
      match SourceRows(metadatas, documents)
      case Err(e) => Err(e)
      case Ok(rows) =>
        match complete(ChatFor(o, userQuery, policyContext))
        case Ok(answer) => Ok(AnswerBundle(o, answer, rows, documents))
        case Err(e) => Ok(ErrorBundle(e))
  }

  /**
   * A successful bundle and an error bundle are told apart by their metadata:
   * the first always names the model, the second is empty.
   */
  lemma BundlesDistinct(o: Orchestrator, userQuery: string, found: QueryResult,
                        complete: ChatRequest -> Result<string>)
    requires Answer(o, userQuery, found, complete).Ok?
    ensures var b := Answer(o, userQuery, found, complete).value;
      ("Model" in b.metadata <==> complete(ChatFor(o, userQuery, Join(found.documents[0], '\n'))).Ok?)
  {
  }

  /**
   * With one metadata per document, each carrying its source, the source table
   * has a row per retrieved document, in retrieval order.
   */
  lemma OneRowPerDocument(metadatas: seq<map<string, string>>, documents: seq<string>, k: nat)
    requires |metadatas| == |documents| && k < |documents|
    requires forall j :: 0 <= j < |metadatas| ==> "source" in metadatas[j]
    ensures SourceRows(metadatas, documents).Ok?
    ensures |SourceRows(metadatas, documents).value| == |documents|
    ensures SourceRows(metadatas, documents).value[k] == map["Source" := metadatas[k]["source"], "Content Snippet" := Snippet(documents[k])]
  {
  }
}
