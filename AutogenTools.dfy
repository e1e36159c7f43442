/** The three tool functions the assistant can offer to the chat agent: the knowledge-base
    query (answer plus citations), the whitelisted calculator, and the web search summary.
    Python's `eval`, the RAG chain's foreign calls and the search provider are parameters. */
module AutogenTools {
  import opened Basics
  import opened Text
  import opened Documents
  import opened RagChainBuilder

  // ===========================================================================
  // Knowledge-base tool

  const DefaultAnswer := "No definitive answer found in the documents."
  const NoMatchNote := " (No specific source documents were strongly matched by the RAG system for this query)."
  const QueryErrorPrefix := "Sorry, an error occurred while querying the documents: "

  /** The chain's result dict as the tool reads it: `answer` may be missing, and
      `context_docs` is `None` when it is missing. */
  datatype ChainReply = ChainReply(answer: Value, contextDocs: Option<seq<Document>>)

  /** The dict the real chain returns, seen through the tool's `.get` calls. */
  function ReplyResult(out: Result<ChainOutput>): Result<ChainReply>
  {
    match out
    case Failure(e) => Failure(e)
    case Success(o) => Success(ChainReply(Str(o.answer), Some(o.contextDocs)))
  }

  /** One entry of `sources_summary`. */
  function Citation(d: Document): string
  {
    "[Source: " + MetaOr(d.metadata, "source") + ", Page: " + MetaOr(d.metadata, "page") + "]"
  }

  function Citations(docs: seq<Document>): (cs: seq<string>)
    ensures |cs| == |docs|
  {
    seq(|docs|, i requires 0 <= i < |docs| => Citation(docs[i]))
  }

  /** The documents the tool cites: none when `context_docs` is missing or empty. */
  function CitedDocs(reply: ChainReply): seq<Document>
  {
    if reply.contextDocs.Some? then reply.contextDocs.value else []
  }

  const CitedSourcesLabel := "\nCited Sources: "

  /** What `query_internal_knowledge_base` returns once it holds a chain. */
  function KnowledgeBaseText(result: Result<ChainReply>): (text: string)
    ensures result.Failure? ==> QueryErrorPrefix <= text && EndsWith(text, result.error)
    ensures result.Success? ==> "Answer: " + Shown(result.value.answer, DefaultAnswer) <= text
    ensures result.Success? && CitedDocs(result.value) == [] ==> EndsWith(text, NoMatchNote)
  {
    match result
    case Failure(e) => QueryErrorPrefix + e
    case Success(reply) =>
      var answer := Shown(reply.answer, DefaultAnswer);
      var docs := CitedDocs(reply);
      if docs != [] then "Answer: " + answer + CitedSourcesLabel + Join(Citations(docs), "; ")
      else "Answer: " + answer + NoMatchNote
  }

  /** The loop of `query_internal_knowledge_base` that collects the citations, and the
      choice between the cited and the unmatched reply. */
  method KnowledgeBaseReply(result: Result<ChainReply>) returns (text: string)
    ensures text == KnowledgeBaseText(result)
  {
    if result.Failure? {
      return QueryErrorPrefix + result.error;
    }
    var reply := result.value;
    var answer := Shown(reply.answer, DefaultAnswer);
    var sourcesSummary: seq<string> := [];
    if reply.contextDocs.Some? && reply.contextDocs.value != [] {
      var docs := reply.contextDocs.value;
      for i := 0 to |docs|
        invariant |sourcesSummary| == i
        invariant forall j :: 0 <= j < i ==> sourcesSummary[j] == Citation(docs[j])
      {
        var d := docs[i];
        sourcesSummary := sourcesSummary + ["[Source: " + MetaOr(d.metadata, "source") + ", Page: "
                                            + MetaOr(d.metadata, "page") + "]"];
      }
      assert sourcesSummary == Citations(docs);
    }
    if sourcesSummary != [] {
      text := "Answer: " + answer + CitedSourcesLabel + Join(sourcesSummary, "; ");
    } else {
      text := "Answer: " + answer + NoMatchNote;
    }
  }

  /** Composed with the real chain, the tool answers with the chat model's own answer
      (never the default text), cites every retrieved document in retrieval order, and
      turns a failing retrieval or chat call into the apology carrying its message. */
  lemma KnowledgeBaseOverChain(chain: RagChain, query: string, retrieve: Retriever, llm: ChatModel)
    ensures var out := InvokeChain(chain, query, retrieve, llm);
            var text := KnowledgeBaseText(ReplyResult(out));
            && (out.Failure? ==> text == QueryErrorPrefix + out.error)
            && (out.Success? && out.value.contextDocs != [] ==>
                  text == "Answer: " + out.value.answer + CitedSourcesLabel
                          + Join(Citations(out.value.contextDocs), "; "))
            && (out.Success? && out.value.contextDocs == [] ==>
                  text == "Answer: " + out.value.answer + NoMatchNote)
  {
  }

  /** Citation i, naming the i-th document's file and page, sits in the joined list after
      the citations before it, each followed by "; ". */
  lemma KnowledgeBaseCitationAt(reply: ChainReply, i: nat)
    requires i < |CitedDocs(reply)|
    ensures var docs := CitedDocs(reply);
            var o := OffsetOf(Citations(docs), i, 2);
            var md := docs[i].metadata;
            var joined := Join(Citations(docs), "; ");
            && o + |Citation(docs[i])| <= |joined|
            && joined[o..o + |Citation(docs[i])|]
               == "[Source: " + MetaOr(md, "source") + ", Page: " + MetaOr(md, "page") + "]"
  {
    var docs := CitedDocs(reply);
    var cs := Citations(docs);
    JoinPartAt(cs, "; ", i);
    assert cs[i] == Citation(docs[i]);
  }

  /** A reply without an `answer` key uses the default answer text. */
  lemma KnowledgeBaseDefaultAnswer(reply: ChainReply)
    requires reply.answer.Absent? && CitedDocs(reply) == []
    ensures KnowledgeBaseText(Success(reply)) == "Answer: " + DefaultAnswer + NoMatchNote
  {
  }

  /** What the tool function itself did: return a text, or let an exception escape. */
  datatype ToolOutcome = Returned(text: string) | Raised(error: string)

  // ===========================================================================
  // Calculator tool

  const AllowedChars := "0123456789+-*/(). "
  const BlockedKeywords := ["import", "os", "sys", "eval", "exec", "lambda", "def", "__"]
  const InvalidCharsError := "Error: Expression contains invalid characters for simple_calculator."
  const KeywordError := "Error: Expression contains disallowed keywords for safety."

  /** Python's `eval` followed by `str`: the printed value, or the exception's text. */
  type Evaluator = string -> Result<string>

  /** `all(char in allowed_chars for char in expression)`. */
  predicate OnlyAllowedChars(expression: string)
  {
    forall i :: 0 <= i < |expression| ==> expression[i] in AllowedChars
  }

  /** `any(keyword in expression.lower() for keyword in [...])`. */
  predicate HasBlockedKeyword(expression: string)
  {
    exists k :: k in BlockedKeywords && Contains(Lower(expression), k)
  }

  function EvaluatedMessage(expression: string, value: string): string
  {
    "The result of '" + expression + "' is " + value + "."
  }

  const CouldNotEvaluate := "Error: Could not evaluate the expression '"
  const EnsureValid := "'. Ensure it's a valid simple arithmetic expression."

  function EvaluationFailedMessage(expression: string): string
  {
    CouldNotEvaluate + expression + EnsureValid
  }

  /** `simple_calculator`: the character whitelist, the keyword blacklist, then `eval`;
      every failure, including one raised by `eval`, comes back as a message. */
  function SimpleCalculator(expression: string, eval: Evaluator): string
  {
    if !OnlyAllowedChars(expression) then InvalidCharsError
    else if HasBlockedKeyword(expression) then KeywordError
    else match eval(expression)
      case Success(v) => EvaluatedMessage(expression, v)
      case Failure(_) => EvaluationFailedMessage(expression)
  }

  /** Every blocked keyword contains a letter or '_', none of which is whitelisted, so an
      expression that passes the whitelist never trips the keyword check. */
  lemma {:induction false} KeywordGateUnreachable(expression: string)
    requires OnlyAllowedChars(expression)
    ensures !HasBlockedKeyword(expression)
  {
    LowerNoCapitals(expression);
    forall k | k in BlockedKeywords
      ensures !Contains(Lower(expression), k)
    {
      assert k[0] !in AllowedChars;
      assert k[0] !in expression;
      NotContainsMissingChar(expression, k, 0);
    }
  }

  /** The calculator is a two-gate function: an expression outside the whitelist is refused
      before `eval` is consulted, and every other expression is handed to `eval`, whose
      value or failure decides the message. */
  lemma CalculatorGates(expression: string, eval: Evaluator)
    ensures !OnlyAllowedChars(expression) ==> SimpleCalculator(expression, eval) == InvalidCharsError
    ensures OnlyAllowedChars(expression) && eval(expression).Success? ==>
              SimpleCalculator(expression, eval) == EvaluatedMessage(expression, eval(expression).value)
    ensures OnlyAllowedChars(expression) && eval(expression).Failure? ==>
              SimpleCalculator(expression, eval) == EvaluationFailedMessage(expression)
  {
    if OnlyAllowedChars(expression) {
      KeywordGateUnreachable(expression);
    }
  }

  /** A failed evaluation never escapes: the message names the expression. */
  lemma EvaluationFailureNamesExpression(expression: string, eval: Evaluator)
    requires OnlyAllowedChars(expression) && eval(expression).Failure?
    ensures Contains(SimpleCalculator(expression, eval), expression)
  {
    CalculatorGates(expression, eval);
    ContainsInfix(CouldNotEvaluate, expression, EnsureValid);
  }

  /** "import os" is refused by the whitelist, with the invalid-characters message. */
  lemma ImportOsRefused(eval: Evaluator)
    ensures SimpleCalculator("import os", eval) == InvalidCharsError
  {
    assert "import os"[0] !in AllowedChars;
  }

  /** "2+2" reaches `eval` and its value is reported. */
  lemma TwoPlusTwo(eval: Evaluator)
    requires eval("2+2") == Success("4")
    ensures SimpleCalculator("2+2", eval) == "The result of '2+2' is 4."
  {
    assert OnlyAllowedChars("2+2");
    CalculatorGates("2+2", eval);
  }

  /** "3/0" reaches `eval`; its division error becomes the could-not-evaluate message. */
  lemma DivisionByZeroReported(eval: Evaluator)
    requires eval("3/0").Failure?
    ensures SimpleCalculator("3/0", eval) == CouldNotEvaluate + "3/0" + EnsureValid
  {
    assert OnlyAllowedChars("3/0");
    CalculatorGates("3/0", eval);
  }

  // ===========================================================================
  // Web search tool

  const SearchUnavailable := "Error: Tavily Search tool is not available or TAVILY_API_KEY is not set."
  const NoResults := "No relevant results found from web search or an unexpected result format was received."
  const SearchErrorPrefix := "Error performing web search: "
  const ResultsHeading := "Web Search Results:\n"
  /** The text of the TypeError raised by slicing a `None` snippet. */
  const NoneNotSubscriptable := "'NoneType' object is not subscriptable"
  const WebSnippetLength: nat := 250

  /** One result dict of the search provider. */
  datatype SearchItem = SearchItem(title: Value, url: Value, content: Value)

  /** What the provider's `invoke` produced: a list of result dicts, a string, some other
      value, or an exception. */
  datatype SearchResponse = ResultList(items: seq<SearchItem>) | ResultText(text: string)
                          | ResultOther | SearchRaised(error: string)

  type SearchProvider = string -> SearchResponse

  /** `content_snippet[:250]`, where a missing content reads "No snippet available.". */
  function WebSnippet(item: SearchItem): (r: string)
    requires !item.content.Null?
    ensures r <= Shown(item.content, "No snippet available.")
    ensures |r| <= WebSnippetLength
    ensures |r| == if |Shown(item.content, "No snippet available.")| <= WebSnippetLength
                   then |Shown(item.content, "No snippet available.")| else WebSnippetLength
  {
    Take(Shown(item.content, "No snippet available."), WebSnippetLength)
  }

  /** The summary line of result number `n` (counted from 1). */
  function ResultLine(n: nat, item: SearchItem): string
    requires !item.content.Null?
  {
    NatToString(n) + ". [" + Shown(item.title, "No Title") + "](" + Shown(item.url, "#")
      + ")\n   - Snippet: " + WebSnippet(item) + "...\n"
  }

  /** Every result carries a snippet that can be sliced (its content is not `None`). */
  predicate SnippetsPresent(items: seq<SearchItem>)
  {
    forall i :: 0 <= i < |items| ==> !items[i].content.Null?
  }

  /** The lines `summary +=` accumulates, read from the last result backwards. */
  function ResultLines(items: seq<SearchItem>): string
    requires SnippetsPresent(items)
  {
    if items == [] then ""
    else ResultLines(items[..|items| - 1]) + ResultLine(|items|, items[|items| - 1])
  }

  /** The same lines read front to back: result `n` first, then the rest numbered on. */
  function ResultLinesFrom(items: seq<SearchItem>, n: nat): string
    requires SnippetsPresent(items)
  {
    if items == [] then ""
    else ResultLine(n, items[0]) + ResultLinesFrom(items[1..], n + 1)
  }

  /** What `perform_web_search` returns for a given provider response. */
  function WebSearchText(available: bool, response: SearchResponse): string
  {
    if !available then SearchUnavailable
    else match response
      case SearchRaised(e) => SearchErrorPrefix + e
      case ResultList(items) =>
        if items == [] then NoResults
        else if !SnippetsPresent(items) then SearchErrorPrefix + NoneNotSubscriptable
        else ResultsHeading + ResultLines(items)
      case ResultText(t) => ResultsHeading + t
      case ResultOther => NoResults
  }

  lemma SnippetsPresentParts(items: seq<SearchItem>, item: SearchItem)
    requires SnippetsPresent(items) && !item.content.Null?
    ensures SnippetsPresent(items + [item])
    ensures items != [] ==> SnippetsPresent(items[1..])
  {
    var whole := items + [item];
    forall i | 0 <= i < |whole| ensures !whole[i].content.Null? {
      if i < |items| {
        assert whole[i] == items[i];
      }
    }
    if items != [] {
      var rest := items[1..];
      forall i | 0 <= i < |rest| ensures !rest[i].content.Null? {
        assert rest[i] == items[i + 1];
      }
    }
  }

  lemma {:induction false} ResultLinesFromSnoc(items: seq<SearchItem>, item: SearchItem, n: nat)
    requires SnippetsPresent(items) && !item.content.Null?
    ensures SnippetsPresent(items + [item])
    ensures ResultLinesFrom(items + [item], n) == ResultLinesFrom(items, n) + ResultLine(n + |items|, item)
  {
    SnippetsPresentParts(items, item);
    var whole := items + [item];
    if items == [] {
      assert whole == [item] && whole[1..] == [];
    } else {
      var rest := items[1..];
      assert whole[0] == items[0] && whole[1..] == rest + [item];
      ResultLinesFromSnoc(rest, item, n + 1);
      var first := ResultLine(n, items[0]);
      var tail := ResultLinesFrom(rest, n + 1);
      assert ResultLinesFrom(whole, n) == first + (tail + ResultLine(n + |items|, item));
      assert ResultLinesFrom(items, n) == first + tail;
      ConcatAssoc(first, tail, ResultLine(n + |items|, item));
    }
  }

  /** The summary numbers the results from 1 in the provider's order: the accumulated
      lines equal the lines read front to back from number 1. */
  lemma {:induction false} ResultLinesInOrder(items: seq<SearchItem>)
    requires SnippetsPresent(items)
    ensures ResultLines(items) == ResultLinesFrom(items, 1)
  {
    if items != [] {
      var n := |items| - 1;
      var init, last := items[..n], items[n];
      assert init + [last] == items;
      assert SnippetsPresent(init);
      calc {
        ResultLines(items);
        ResultLines(init) + ResultLine(n + 1, last);
        { ResultLinesInOrder(init); }
        ResultLinesFrom(init, 1) + ResultLine(n + 1, last);
        { ResultLinesFromSnoc(init, last, 1); }
        ResultLinesFrom(items, 1);
      }
    }
  }

  /** The `summary +=` loop of `perform_web_search` over a list of results; slicing a
      `None` snippet raises, and the handler replaces the whole summary by its message. */
  method SummarizeResults(items: seq<SearchItem>) returns (text: string)
    ensures !SnippetsPresent(items) ==> text == SearchErrorPrefix + NoneNotSubscriptable
    ensures SnippetsPresent(items) ==> text == ResultsHeading + ResultLines(items)
  {
    var summary := ResultsHeading;
    for i := 0 to |items|
      invariant SnippetsPresent(items[..i]) && summary == ResultsHeading + ResultLines(items[..i])
    {
      var item := items[i];
      if item.content.Null? {
        assert !SnippetsPresent(items);
        return SearchErrorPrefix + NoneNotSubscriptable;
      }
      ResultLinesStep(items, i);
      ConcatAssoc(ResultsHeading, ResultLines(items[..i]), ResultLine(i + 1, item));
      summary := summary + ResultLine(i + 1, item);
    }
    assert items[..|items|] == items;
    text := summary;
  }

  /** One more result appends its line after those of the results before it. */
  lemma ResultLinesStep(items: seq<SearchItem>, i: nat)
    requires i < |items| && SnippetsPresent(items[..i]) && !items[i].content.Null?
    ensures SnippetsPresent(items[..i + 1])
    ensures ResultLines(items[..i + 1]) == ResultLines(items[..i]) + ResultLine(i + 1, items[i])
  {
    var done := items[..i + 1];
    assert done[..i] == items[..i] && done[i] == items[i];
    forall j | 0 <= j < |done| ensures !done[j].content.Null? {
      if j < i {
        assert done[j] == items[..i][j];
      }
    }
  }

  /** A single `None` snippet anywhere in the list discards the whole summary. */
  lemma NullSnippetFailsSearch(items: seq<SearchItem>, i: nat)
    requires i < |items| && items[i].content.Null?
    ensures WebSearchText(true, ResultList(items)) == SearchErrorPrefix + NoneNotSubscriptable
  {
  }

  /** The tool-side state set up when the module is imported: the cached chain, the store
      cache it shares with the chain builder, the configuration, and whether a search
      provider was created (its package imported and TAVILY_API_KEY truthy). */
  class ToolState {
    var ragChain: Option<RagChain>
    const stores: VectorStoreCache
    const googleApiKey: Option<string>
    const chatModelName: string
    const searchAvailable: bool

    constructor (stores: VectorStoreCache, googleApiKey: Option<string>, chatModelName: string,
                 tavilyInstalled: bool, tavilyApiKey: Option<string>)
      ensures ragChain.None? && this.stores == stores
      ensures this.googleApiKey == googleApiKey && this.chatModelName == chatModelName
      ensures searchAvailable == (tavilyInstalled && !Falsy(tavilyApiKey))
    {
      ragChain := None;
      this.stores := stores;
      this.googleApiKey := googleApiKey;
      this.chatModelName := chatModelName;
      searchAvailable := tavilyInstalled && !Falsy(tavilyApiKey);
    }

    /** `get_rag_instance_for_tool`: builds the chain on first use with the default k and
        keeps it; a failed build leaves the slot empty, so the next call tries again. */
    method GetRagInstanceForTool() returns (r: Result<RagChain>)
      modifies this, stores
      ensures old(ragChain).Some? ==>
                r == Success(old(ragChain).value) && ragChain == old(ragChain)
                && stores.instance == old(stores.instance)
      ensures old(ragChain).None? && Falsy(googleApiKey) ==>
                r == Failure(ApiKeyMissing) && ragChain.None? && stores.instance == old(stores.instance)
      ensures old(ragChain).None? && !Falsy(googleApiKey) ==>
                && r.Success? && ragChain == Some(r.value)
                && r.value.k == DefaultK && r.value.chatModelName == chatModelName
                && r.value.store == stores.instance
                && (old(stores.instance) != null ==> r.value.store == old(stores.instance))
    {
      if ragChain.None? {
        var built := GetRagChain(stores, googleApiKey, chatModelName, DefaultK);
        if built.Failure? {
          return Failure(built.error);
        }
        ragChain := Some(built.value);
      }
      r := Success(ragChain.value);
    }

    /** `query_internal_knowledge_base`. The chain is fetched before the `try`, so a
        failure to build it escapes the tool as an exception; once a chain exists every
        outcome of invoking it is a returned text. (Its `if not rag_chain` test can never
        fire: a chain object is always truthy.) */
    method QueryInternalKnowledgeBase(query: string, retrieve: Retriever, llm: ChatModel)
        returns (out: ToolOutcome)
      modifies this, stores
      ensures old(ragChain).None? && Falsy(googleApiKey) ==>
                out == Raised(ApiKeyMissing) && ragChain.None? && stores.instance == old(stores.instance)
      ensures old(ragChain).Some? ==> ragChain == old(ragChain) && stores.instance == old(stores.instance)
      ensures old(ragChain).None? && !Falsy(googleApiKey) ==>
                && ragChain.Some? && ragChain.value.k == DefaultK
                && ragChain.value.chatModelName == chatModelName
                && ragChain.value.store == stores.instance
                && (old(stores.instance) != null ==> ragChain.value.store == old(stores.instance))
      ensures !(old(ragChain).None? && Falsy(googleApiKey)) ==>
                ragChain.Some?
                && out == Returned(KnowledgeBaseText(ReplyResult(InvokeChain(ragChain.value, query, retrieve, llm))))
    {
      var chain := GetRagInstanceForTool();
      if chain.Failure? {
        return Raised(chain.error);
      }
      var result := InvokeChain(chain.value, query, retrieve, llm);
      var text := KnowledgeBaseReply(ReplyResult(result));
      out := Returned(text);
    }

    /** `perform_web_search`: the numbered summary loop over a list response, and the
        other response shapes. */
    method PerformWebSearch(query: string, search: SearchProvider) returns (text: string)
      ensures text == WebSearchText(searchAvailable, search(query))
    {
      if !searchAvailable {
        return SearchUnavailable;
      }
      var results := search(query);
      match results {
        case SearchRaised(e) =>
          text := SearchErrorPrefix + e;
        case ResultText(t) =>
          text := ResultsHeading + t;
        case ResultOther =>
          text := NoResults;
        case ResultList(items) =>
          if items == [] {
            text := NoResults;
          } else {
            text := SummarizeResults(items);
          }
      }
    }
  }
}
