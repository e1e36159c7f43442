# Knowledge assistant core, modelled in Dafny

This project models the deterministic logic of a document question-answering assistant.
The assistant loads PDF pages into a vector store. A retrieval-augmented chain answers from
the retrieved pages. Two AutoGen agents, an assistant and a user proxy, call the chain as a
tool. A Streamlit page shows the conversation.

The model covers the parts of the code that decide something:

- **RagChainBuilder** (`src/rag_chain_builder.py`):
  - the lazily created vector-store singleton;
  - the context formatter: numbered source headers, "N/A" for missing metadata, 1500-character snippets, and the "No context documents found." sentinel;
  - the dataflow of the chain, with the retriever and the chat model as parameters.
- **AutogenTools** (`src/autogen_tools.py`):
  - the knowledge-base tool's answer-and-citations text;
  - the calculator's whitelist and keyword gates around an abstract `eval`;
  - the web search tool's numbered summary;
  - the tool-side chain singleton.
- **DocumentProcessor** (`src/document_processor.py`):
  - the `load_pdfs` loop over files and pages, with its three counters;
  - the empty-input guard of `chunk_documents`.
- **AutogenManager** (`src/autogen_manager.py`):
  - the `is_termination_msg` rule;
  - the declared function schema and the proxy's `function_map`;
  - the once-only construction of the agent pair.
- **App** (`app.py`):
  - `display_message_in_ui` as a pure function from a message to what its chat bubble holds;
  - the loop that filters the prompt echo out of a finished conversation and maps the rest for display;
  - the session's display list.

Shared pieces:

- **Basics**: `Option`, `Result` and `Value`. `Value` is what a dict's `.get` finds: a missing key, `None`, or a string.
- **Text**: the Python string operations the code uses (`rstrip`, `strip`, `lower`, slicing, `join`, `in`, integer formatting).
- **Documents**: LangChain's `Document` with its metadata dict.

Some calls go to code outside the repository: Chroma's similarity search, the Gemini and OpenAI chat models, Tavily, PyMuPDF, the directory listing, the text splitter and `eval`. Each is a parameter of the model, either a function or the data it produced. A Python exception is a `Failure` carrying its text. A module-level global that is filled once is a class holding the cached reference:

- `VectorStoreCache` for `_vector_store_instance`;
- `ToolState` for `_rag_chain_instance_for_tool`;
- `AgentRegistry` for `assistant_agent` and `user_proxy_agent`.

## Model

| member | source | states |
|---|---|---|
| RagChainBuilder.DefaultEmbedding | src/vector_store_manager.py:15-24 | Fails with the configuration message exactly when the Google key is missing or empty; otherwise uses the embedding-001 model with that key |
| RagChainBuilder.VectorStoreCache.constructor | src/rag_chain_builder.py:19 | The module's store slot starts empty |
| RagChainBuilder.VectorStore.constructor | src/rag_chain_builder.py:32-36 | The store keeps the collection name, embedding function and persist directory it is opened with |
| RagChainBuilder.VectorStoreCache.GetVectorStoreInstance | src/rag_chain_builder.py:21-38 | A filled slot is returned unchanged and the arguments are ignored; an empty slot gets a new store built from the arguments, with the default embedding when none is given; when the key is missing nothing is stored and the error comes back |
| RagChainBuilder.VectorStoreBuiltOnce | src/rag_chain_builder.py:26-38 | Two calls on an empty slot return one and the same store, configured by the first call's arguments |
| RagChainBuilder.Snippet | src/rag_chain_builder.py:55 | The snippet is a prefix of the page text of length min(1500, length of text) |
| RagChainBuilder.ContextParts | src/rag_chain_builder.py:48-56 | There is exactly one part per retrieved document |
| RagChainBuilder.FormatDocsWithSources | src/rag_chain_builder.py:40-58 | The append loop and join produce the formatted context: the sentinel for no documents, otherwise the parts joined by newlines |
| RagChainBuilder.FormattedContextSentinel | src/rag_chain_builder.py:45-46 | The result is "No context documents found." if and only if no document was retrieved |
| RagChainBuilder.FormattedContextSnoc | src/rag_chain_builder.py:49-58 | One more document appends a newline and its part, numbered after all earlier ones, so the parts keep input order |
| RagChainBuilder.FormattedContextPartAt | src/rag_chain_builder.py:49-58 | Document i's header "Source i+1 (...)", ":\n", snippet and "\n---\n" appear verbatim in the result, after the parts before it |
| RagChainBuilder.SourceHeaderMissingMetadata | src/rag_chain_builder.py:50-53 | A document without `source` and `page` metadata has the header "Source n (File: N/A, Page: N/A)" |
| RagChainBuilder.GetRagChain | src/rag_chain_builder.py:60-89 | A falsy key fails with "GOOGLE_API_KEY not configured." and leaves the store slot alone; otherwise the chain keeps the model name and k and uses the shared store, built with the configured collection and directory on first use |
| RagChainBuilder.InvokeChain | src/rag_chain_builder.py:141-157 | The reference definition of one invocation of `rag_chain_alternative`: retrieve with the chain's k, format, prompt the chat model, return question, documents and answer; its properties are ChainDataflow and ChainWithNoDocuments |
| RagChainBuilder.ChainDataflow | src/rag_chain_builder.py:141-157 | The chain succeeds exactly when retrieval and the chat call succeed; then `question` is the input, `context_docs` is the retriever's result for the chain's k, and `answer` is the chat model's reply to the prompt built from the formatted documents |
| RagChainBuilder.ChainWithNoDocuments | src/rag_chain_builder.py:141-157 | With nothing retrieved, the prompt's context is the sentinel and the output has an empty document list |
| AutogenTools.Citations | src/autogen_tools.py:45-50 | There is one citation per context document |
| AutogenTools.KnowledgeBaseText | src/autogen_tools.py:41-60 | The reference text of the tool once it holds a chain: a chain failure gives the apology ending in the error text; otherwise the text opens with "Answer: " and the answer (the default sentence when the key is missing), and with no documents ends with the no-match note |
| AutogenTools.KnowledgeBaseReply | src/autogen_tools.py:42-60 | The citation loop and the branch after it produce the tool's text: the error apology, the answer with citations, or the answer with the no-match note |
| AutogenTools.KnowledgeBaseOverChain | src/autogen_tools.py:41-60 | Over the real chain, the tool reports the chat model's own answer, cites every retrieved document in retrieval order joined by "; ", uses the no-match note when nothing was retrieved, and turns a chain failure into "Sorry, an error occurred while querying the documents: " plus its message |
| AutogenTools.KnowledgeBaseCitationAt | src/autogen_tools.py:45-53 | The i-th citation "[Source: s, Page: p]", naming document i's file and page, appears verbatim in the joined list after the citations before it |
| AutogenTools.KnowledgeBaseDefaultAnswer | src/autogen_tools.py:43-55 | A reply without an `answer` key and without documents reads "Answer: No definitive answer found in the documents." plus the no-match note |
| AutogenTools.KeywordGateUnreachable | src/autogen_tools.py:74-79 | Any expression that passes the character whitelist also passes the keyword blacklist, because every keyword holds a letter or '_' |
| AutogenTools.SimpleCalculator | src/autogen_tools.py:63-86 | The calculator's definition: the character whitelist, then the keyword blacklist, then `eval`, every outcome a returned message; its properties are CalculatorGates and KeywordGateUnreachable |
| AutogenTools.CalculatorGates | src/autogen_tools.py:72-86 | A character outside the whitelist gives the invalid-characters error with `eval` never consulted; otherwise `eval`'s value gives "The result of '<expr>' is <value>." and its failure gives the could-not-evaluate message |
| AutogenTools.EvaluationFailureNamesExpression | src/autogen_tools.py:83-86 | A failed evaluation is a returned message that contains the expression |
| AutogenTools.ImportOsRefused | src/autogen_tools.py:131 | "import os" gets the invalid-characters message, whatever `eval` would do |
| AutogenTools.TwoPlusTwo | src/autogen_tools.py:127 | When `eval` gives 4, "2+2" yields "The result of '2+2' is 4." |
| AutogenTools.DivisionByZeroReported | src/autogen_tools.py:130 | When `eval` fails on "3/0", the calculator returns the could-not-evaluate message naming "3/0" |
| AutogenTools.WebSnippet | src/autogen_tools.py:109-110 | The snippet is the prefix of the content, or of "No snippet available." when content is missing, of length min(250, its length) |
| AutogenTools.ResultLinesFromSnoc | src/autogen_tools.py:106-110 | Read front to back, one more result appends its line numbered after all earlier ones |
| AutogenTools.ResultLinesInOrder | src/autogen_tools.py:104-111 | The accumulated summary lines are the results in provider order, numbered from 1 |
| AutogenTools.WebSearchText | src/autogen_tools.py:96-120 | The reference text of the web search for each response shape: unavailable, raised, empty or other list, plain string, or the numbered summary; PerformWebSearch is proved equal to it |
| AutogenTools.SummarizeResults | src/autogen_tools.py:104-120 | The `summary +=` loop yields "Web Search Results:\n" followed by every result line; a `None` snippet raises, and the handler replaces the whole summary with the error text |
| AutogenTools.ResultLinesStep | src/autogen_tools.py:106-110 | One more result appends exactly its own line, numbered i+1 |
| AutogenTools.NullSnippetFailsSearch | src/autogen_tools.py:104-120 | A single `None` snippet anywhere makes the tool return "Error performing web search: " and the TypeError text |
| AutogenTools.ToolState.constructor | src/autogen_tools.py:7-21 | No chain is cached yet; search is available only when the Tavily package imports and TAVILY_API_KEY is truthy |
| AutogenTools.ToolState.GetRagInstanceForTool | src/autogen_tools.py:21-28 | A cached chain is returned unchanged; otherwise a chain with k = 3 is built over the shared store and cached; a failed build caches nothing |
| AutogenTools.ToolState.QueryInternalKnowledgeBase | src/autogen_tools.py:30-60 | A failure to build the chain escapes the tool as an exception; once a chain exists, every outcome is the returned knowledge-base text for that chain's output. A falsy key leaves the cache empty and the store slot as it was; a cached chain is kept and the store slot untouched; a first build caches a k = 3 chain with the configured chat model over the shared store |
| AutogenTools.ToolState.PerformWebSearch | src/autogen_tools.py:88-120 | The unavailability error when no provider exists; the caught exception text; the summary for a non-empty list; the heading plus the text for a string; the no-results message for an empty list or any other shape |
| DocumentProcessor.PathJoinShape | src/document_processor.py:40 | POSIX `os.path.join` (DocumentProcessor.PathJoin): the path ends with the file name; an absolute name is the whole path; otherwise the path starts with the folder, with at most one '/' added |
| DocumentProcessor.PdfFiles | src/document_processor.py:31 | Keeps exactly the listed files whose lower-cased name ends with ".pdf", and nothing else |
| DocumentProcessor.PdfFilesAppend | src/document_processor.py:31 | The filter keeps listing order: filtering two parts of a listing gives the first part's PDF files followed by the second's |
| DocumentProcessor.LoadPages | src/document_processor.py:45-56 | The page loop makes one document per page whose stripped text is non-empty, in page order, and counts them |
| DocumentProcessor.LoadStep | src/document_processor.py:39-70 | One more file appends its page documents; an error counts it as failed; otherwise a file with text pages adds its pages and one processed file; a file without text changes no counter |
| DocumentProcessor.LoadPdfs | src/document_processor.py:21-88 | A path that is not a directory gives no documents and zero counters; otherwise the result is every PDF file's documents in listing order, with the counters of that batch |
| DocumentProcessor.PageDocsWellFormed | src/document_processor.py:49-55 | Every document of a file has non-blank text, `source` = the file name, `file_path` = its joined path, and `page` between 1 and the page count |
| DocumentProcessor.PageDocsContent | src/document_processor.py:46-56 | A document numbered `page` holds the text of page `page - 1` (pages counted from 0), so the number is `page_num + 1` of the page whose text it stores |
| DocumentProcessor.PageDocsComplete | src/document_processor.py:46-56 | Every page with text yields its document, numbered `page_num + 1`: no non-blank page is lost |
| DocumentProcessor.LoadedDocsWellFormed | src/document_processor.py:31-55 | Every loaded document is well formed and its source is a ".pdf" name |
| DocumentProcessor.PageDocsInPageOrder | src/document_processor.py:46-56 | Within a file, documents come out in strictly increasing page order |
| DocumentProcessor.LoadedDocsAppend | src/document_processor.py:39-70 | A file's documents do not depend on the files before it, failed or not: a batch's documents are its first part's followed by the rest's |
| DocumentProcessor.StatsAccounting | src/document_processor.py:55-70 | Counted pages plus pages kept from failed files equal all loaded documents; no file is counted both processed and failed; each processed file contributed a page |
| DocumentProcessor.ChunkDocuments | src/document_processor.py:90-119 | No documents give no chunks without calling the splitter; otherwise the splitter's result for the given size and overlap |
| DocumentProcessor.ChunkWithDefaults | src/document_processor.py:92-93 | Without explicit arguments the splitter is asked for chunks of 1000 characters overlapping by 200 |
| AutogenManager.IsTerminationMsg | src/autogen_manager.py:67 | The proxy's termination rule: the content is a string whose right-stripped form ends with TERMINATE; the lemmas below characterise it in both directions |
| AutogenManager.TerminalWhenTokenLast | src/autogen_manager.py:67 | Any text followed by TERMINATE and then only whitespace is terminal |
| AutogenManager.TerminalDecomposes | src/autogen_manager.py:67 | A terminal message is always some text, then TERMINATE, then whitespace only |
| AutogenManager.TerminationIgnoresTrailingSpace | src/autogen_manager.py:67 | Appending whitespace never changes whether a message is terminal |
| AutogenManager.TerminalEndsInE | src/autogen_manager.py:67 | In a terminal message the last non-whitespace character is the token's final 'E', so a token followed by other text is not terminal |
| AutogenManager.TerminalOnlyForText | src/autogen_manager.py:67 | Only string content can be terminal: `None` or missing content never is |
| AutogenManager.AnswerThenTokenIsTerminal | src/autogen_manager.py:67 | "The answer is 42. TERMINATE" is terminal |
| AutogenManager.TokenThenSpaceIsTerminal | src/autogen_manager.py:67 | A token followed by spaces and a newline is terminal |
| AutogenManager.GluedTokenIsTerminal | src/autogen_manager.py:67 | "Done: XTERMINATE" is terminal: the test is a suffix test, not a word match |
| AutogenManager.TokenFollowedByTextIsNotTerminal | src/autogen_manager.py:67 | "TERMINATE now" is not terminal |
| AutogenManager.DeclaredNames | src/autogen_manager.py:29-44 | The declared names are exactly the names of the schema entries |
| AutogenManager.SchemaConsistency | src/autogen_manager.py:29-71 | The single declared function is the single `function_map` key, `query_internal_knowledge_base`, mapped to the tool, and its schema requires the declared `query` property |
| AutogenManager.InstructionNamesToken | src/autogen_manager.py:58-67 | The last sentence of the assistant's system message, written out as the source has it, contains the token the proxy's termination rule looks for, as the word just before its closing period |
| AutogenManager.AssistantAgent.constructor | src/autogen_manager.py:47-61 | The assistant is "DocAssistantOpenAI" and declares the knowledge-base schema and the TERMINATE instruction |
| AutogenManager.UserProxyAgent.constructor | src/autogen_manager.py:63-72 | The proxy is "UserProxy", never asks for human input, allows at most 5 automatic replies, runs no code, and maps the tool name to the tool |
| AutogenManager.BuildAgents | src/autogen_manager.py:22-72 | Builds a new, matching pair: each side knows the other's tool |
| AutogenManager.AgentRegistry.constructor | src/autogen_manager.py:17-18 | Both globals start empty |
| AutogenManager.AgentRegistry.GetAutogenAgents | src/autogen_manager.py:20-75 | When either global is empty both are rebuilt; otherwise the stored pair is returned and nothing changes; the returned pair always matches |
| AutogenManager.AgentsBuiltOnce | src/autogen_manager.py:20-75 | Two calls in a row hand out the same assistant and the same proxy |
| App.StripTerminate | app.py:80-81 | The displayed text is always a prefix of the content |
| App.TextBranch | app.py:78-84 | The text branch shows a non-blank prefix of the string content, or nothing |
| App.DisplayMessage | app.py:46-84 | Fails exactly on a `None` role or a non-empty list of calls. The bubble is "user" exactly for role "user" and "assistant" otherwise. A truthy call gives the call block; otherwise role "function" gives the result block; otherwise the text branch. Any text shown is a non-blank prefix of the content. Every block is headed by the message's name, or by its lower-cased role when the name is missing. The call block names the call's "name" ("None" when missing) and carries its "arguments" ("{}" when missing). It shows the message text above the call exactly when that text is non-empty and does not read "none" once stripped and lower-cased. The result block shows the content ("" when missing, "None" for `None`) |
| App.StripTerminateIff | app.py:79-81 | Text is changed for display exactly when the termination rule accepts it, and then at least the 9 token characters are gone |
| App.StripTerminateTokenLast | app.py:80-81 | Text, the token and trailing whitespace display as the text, right-stripped |
| App.TokenLastDisplayedStripped | app.py:78-84 | A non-blank turn ending in the token is shown as its text without the token, right-stripped |
| App.AnswerLosesToken | app.py:80-81 | "The answer is 42. TERMINATE" is displayed as "The answer is 42." |
| App.PlainTextShownVerbatim | app.py:78-84 | Non-blank text that the termination rule does not accept is shown exactly as sent |
| App.BlankRendersNothing | app.py:78 | Whitespace-only text renders nothing |
| App.BareTokenRendersNothing | app.py:78-84 | The bare token, with any whitespace before or after it, renders nothing |
| App.CallOr | app.py:168 | `tool_calls or function_call` is truthy exactly when either is. It is `tool_calls` when that is truthy, otherwise `function_call`, and a missing `function_call` reads as `None` |
| App.ToDisplay | app.py:164-169 | The display dict defaults a missing role to "assistant", a missing name to the message's role (`None` when that is missing too), and missing content to `None`. Present fields, a stored `None` included, are copied. The call is `tool_calls` when that is truthy, otherwise `function_call` (`None` when missing) |
| App.NullRoleFailsDisplay | app.py:165 | A stored `None` role is copied into the display dict, and rendering it then fails at the `.lower()` of app.py line 47 |
| App.ToolCallListFailsDisplay | app.py:168 | A non-empty `tool_calls` list becomes the displayed call, and rendering it then fails at the `.get` of app.py line 60 |
| App.MapDisplay | app.py:164-170 | Mapping keeps length and order: message i becomes display message i |
| App.LeadingEchoes | app.py:157-161 | Counts the run of prompt echoes at the front: all messages before it are echoes and the next one is not |
| App.CollectTurnMessages | app.py:155-170 | The loop's output is the conversation minus its leading run of prompt echoes, mapped for display in order |
| App.AllEchoesAddNothing | app.py:157-161 | A conversation of prompt echoes only adds nothing |
| App.LaterMessagesKept | app.py:157-170 | Every message after the leading echoes is kept at its own position, including later echoes of the prompt |
| App.NoLeadingEchoKeepsAll | app.py:157-170 | A conversation that does not open with the prompt is kept whole |
| App.ChatSession.constructor | app.py:23-24 | The display list starts empty |
| App.ChatSession.Greet | app.py:33-38 | The greeting is added only to an empty display list |
| App.ChatSession.AppendUserPrompt | app.py:140 | The prompt is appended as a message from "User" |
| App.ChatSession.RecordTurn | app.py:153-179 | A non-empty conversation extends the list with its filtered messages; an empty one appends exactly the "(No response from assistant for this turn.)" message |
| App.ChatSession.RecordError | app.py:183-187 | A failed chat appends one "SystemError" message carrying the error text |
| App.ChatSession.ChatTurn | app.py:139-188 | One prompt appends the prompt, then the turn's messages, the fallback, or the error message |
| Text.RStrip | src/autogen_manager.py:67 | `rstrip()` returns a prefix that does not end in whitespace, and only whitespace is removed |
| Text.LStrip | src/document_processor.py:49 | `lstrip()` returns a suffix that does not start with whitespace, and only whitespace is removed |
| Text.StripEmpty | src/document_processor.py:49 | `strip()` is empty exactly for whitespace-only text |
| Text.Take | src/rag_chain_builder.py:55 | Slicing `[:n]` gives the prefix of length min(n, length) |
| Text.Lower | src/document_processor.py:31 | `lower()` keeps the length and lowers each character |
| Text.LowerNoCapitals | src/autogen_tools.py:78 | Text without capitals is unchanged by `lower()` |
| Text.NatToString | src/rag_chain_builder.py:51 | The decimal rendering is non-empty, all digits, and has no leading zero |
| Text.NatToStringRoundTrip | src/rag_chain_builder.py:51 | Parsing the rendering of a number gives the number back |
| Text.RStripTrailingSpace | src/autogen_manager.py:67 | Appending whitespace does not change `rstrip()` |
| Text.ContainsInfix | src/autogen_tools.py:78 | A string contains every infix it is built around |
| Text.NotContainsMissingChar | src/autogen_tools.py:78 | A string lacking one of a keyword's characters does not contain the keyword |
| Text.JoinSnoc | src/rag_chain_builder.py:58 | Joining one more part appends the separator and the part |
| Text.JoinPartAt | src/rag_chain_builder.py:58 | Each part appears verbatim in the joined string, after the earlier parts and their separators |

## Left out

- All `print` logging, `traceback` output and Streamlit widgets (titles, spinners, sidebar, `st.rerun`, `st.stop`) are left out. They decide nothing that is displayed.
- Chroma, the embedding model, the Gemini chat model and the prompt/LLM/parser runnables are foreign. The store is a handle, and retrieval and the chat model are function parameters (`Retriever`, `ChatModel`).
- RagChainBuilder.GetRagChain: the chat model's name is a parameter. `GEMINI_CHAT_MODEL_FOR_RAG` is imported from `src/config.py` but not defined there, so the default is not modelled. Temperature and the system-message conversion flag are not modelled.
- The first chain the source builds (`rag_chain`, src/rag_chain_builder.py:121-133) is never returned, so it is not modelled.
- The vector store's item count, printed after loading, is left out.
- `eval` is an abstract `Evaluator` that gives a printed value or an error text. Python's float division and number formatting are not modelled.
- The Tavily client is a `SearchProvider` parameter. Its `max_results=3` is a library setting that the repository's code does not enforce.
- The calculator and web-search tools are not registered with the agents. The model, like the code, only lets the proxy call the knowledge-base tool.
- AutogenTools.ToolState.QueryInternalKnowledgeBase: the `if not rag_chain` test cannot fire, because a chain object is always truthy, so no such branch is modelled.
- AutoGen's conversation loop is library code and is left out. That covers `initiate_chat`, `reset`, the LLM configuration list and the reply budget of 5. The reply budget is recorded on the proxy, and the finished conversation is an input to `App.ChatSession.ChatTurn`.
- Reading a PDF is left out: each file is given as the page texts read before any error, and the error. Closing the file and its close-time exception are left out.
- The directory listing is the `Folder` parameter.
- `RecursiveCharacterTextSplitter` is the `Splitter` parameter. Its algorithm is not part of the repository.
- DocumentProcessor.LoadPdfs: the early return for a folder with no PDF files is folded into the general case. That case also returns no documents and zero counters.
- Text.Lower: `lower()` is modelled for ASCII letters only; other characters are left as they are. This does not change any comparison the code makes. Outside ASCII, only U+0130 (which lowers to 'i' followed by a combining dot) and U+212A, the Kelvin sign (which lowers to 'k'), lower to text containing an ASCII letter, so no other character lowers to '.', 'p', 'd' or 'f' and the ".pdf" test on a listed file name gives the same answer; nor do they produce "user" or "function" for a role; the calculator lowers only expressions that passed its ASCII whitelist. A non-ASCII role that is shown as the default agent name is shown with only its ASCII capitals lowered.
- App.DisplayMessage: the call block carries the raw `arguments` value. The JSON parsing and pretty-printing of app.py:62-68 are left out, and so is the error a `None` argument string would raise there.
- App.DisplayMessage: markdown decoration (headers, emoji, code fences) is left out. The block records the agent name and the text between them.
- App.ChatSession: the ingestion button that clears the agents and the display list (app.py:108-123) is left out, and so is the replay of history (app.py:135-136).
- Not modelled: `src/vector_store_manager.py` (apart from the embedding key check), `ingest.py`, `src/config.py` and the test scripts. They load the environment, orchestrate I/O, or call live services.
