/** The retrieval-augmented answer chain: the lazily loaded vector store, the formatter
    that renders retrieved chunks into one context string, and the chain that
    retrieves, formats, prompts the chat model and returns question, documents and answer.
    The vector store's search and the chat model are foreign and enter as parameters. */
module RagChainBuilder {
  import opened Basics
  import opened Text
  import opened Documents

  // ---------------------------------------------------------------------------
  // Configuration constants

  const DefaultCollectionName := "foxo_docs_gemini"
  const DefaultPersistDirectory := "vector_store"
  const EmbeddingModel := "models/embedding-001"
  /** Number of chunks the retriever asks for unless told otherwise. */
  const DefaultK: nat := 3

  const ApiKeyMissing := "GOOGLE_API_KEY not configured."
  const EmbeddingKeyMissing := "GOOGLE_API_KEY not configured. Please ensure it's in .env and loaded."

  // ---------------------------------------------------------------------------
  // The vector store singleton

  /** The embedding function a store is built with. */
  datatype Embedding = GoogleEmbeddings(model: string, apiKey: string) | CallerEmbedding(id: nat)

  /** A Chroma store handle: which collection, where it is persisted, how it embeds. */
  class VectorStore {
    const collectionName: string
    const embedding: Embedding
    const persistDirectory: string

    constructor (collectionName: string, embedding: Embedding, persistDirectory: string)
      ensures this.collectionName == collectionName
      ensures this.embedding == embedding
      ensures this.persistDirectory == persistDirectory
    {
      this.collectionName := collectionName;
      this.embedding := embedding;
      this.persistDirectory := persistDirectory;
    }
  }

  /** `get_embedding_function()`: Google embeddings, or an error when the key is falsy. */
  function DefaultEmbedding(apiKey: Option<string>): (r: Result<Embedding>)
    ensures r.Failure? <==> Falsy(apiKey)
    ensures r.Failure? ==> r.error == EmbeddingKeyMissing
    ensures r.Success? ==> r.value == GoogleEmbeddings(EmbeddingModel, apiKey.value)
  {
    if Falsy(apiKey) then Failure(EmbeddingKeyMissing)
    else Success(GoogleEmbeddings(EmbeddingModel, apiKey.value))
  }

  /** The module-level slot `_vector_store_instance`. */
  class VectorStoreCache {
    var instance: VectorStore?

    constructor ()
      ensures instance == null
    {
      instance := null;
    }

    /** `get_vector_store_instance`: the first successful call builds the store from its
        arguments; every later call returns that same store and ignores its arguments. */
    method GetVectorStoreInstance(apiKey: Option<string>, embeddingFn: Option<Embedding>,
                                  collectionName: string, persistDirectory: string)
      returns (r: Result<VectorStore>)
      modifies this
      ensures old(instance) != null ==> r.Success? && r.value == old(instance) && instance == old(instance)
      ensures old(instance) == null && embeddingFn.None? && Falsy(apiKey) ==>
                r == Failure(EmbeddingKeyMissing) && instance == null
      ensures old(instance) == null && (embeddingFn.Some? || !Falsy(apiKey)) ==>
                && r.Success? && fresh(r.value) && instance == r.value
                && r.value.collectionName == collectionName
                && r.value.persistDirectory == persistDirectory
                && r.value.embedding == (if embeddingFn.Some? then embeddingFn.value
                                         else GoogleEmbeddings(EmbeddingModel, apiKey.value))
    {
      if instance == null {
        var embedding: Embedding;
        if embeddingFn.Some? {
          embedding := embeddingFn.value;
        } else {
          var e := DefaultEmbedding(apiKey);
          if e.Failure? {
            return Failure(e.error);
          }
          embedding := e.value;
        }
        instance := new VectorStore(collectionName, embedding, persistDirectory);
      }
      r := Success(instance);
    }
  }

  /** Two successive calls on a fresh cache: both succeed, and the second returns the store
      the first built, whatever arguments it was given. */
  method VectorStoreBuiltOnce(apiKey: Option<string>, e1: Option<Embedding>, c1: string, p1: string,
                              e2: Option<Embedding>, c2: string, p2: string)
      returns (first: VectorStore, second: VectorStore)
    requires !Falsy(apiKey)
    ensures first == second
    ensures first.collectionName == c1 && first.persistDirectory == p1
  {
    var cache := new VectorStoreCache();
    var r1 := cache.GetVectorStoreInstance(apiKey, e1, c1, p1);
    var r2 := cache.GetVectorStoreInstance(apiKey, e2, c2, p2);
    first, second := r1.value, r2.value;
  }

  // ---------------------------------------------------------------------------
  // The context formatter

  const NoContextFound := "No context documents found."
  const SnippetLength: nat := 1500

  /** `doc.page_content[:1500]`. */
  function Snippet(content: string): (r: string)
    ensures r <= content
    ensures |r| == if |content| <= SnippetLength then |content| else SnippetLength
  {
    Take(content, SnippetLength)
  }

  /** The header of the i-th (0-based) retrieved document, numbered from 1. */
  function SourceHeader(i: nat, d: Document): string
  {
    "Source " + NatToString(i + 1) + " (File: " + MetaOr(d.metadata, "source")
      + ", Page: " + MetaOr(d.metadata, "page") + ")"
  }

  /** One element of `formatted_context_parts`. */
  function ContextPart(i: nat, d: Document): string
  {
    SourceHeader(i, d) + ":\n" + Snippet(d.pageContent) + "\n---\n"
  }

  function ContextParts(docs: seq<Document>): (parts: seq<string>)
    ensures |parts| == |docs|
  {
    seq(|docs|, i requires 0 <= i < |docs| => ContextPart(i, docs[i]))
  }

  /** What `format_docs_with_sources` returns. */
  function FormattedContext(docs: seq<Document>): string
  {
    if docs == [] then NoContextFound else Join(ContextParts(docs), "\n")
  }

  /** `format_docs_with_sources`: the loop that builds the parts, then joins them. */
  method FormatDocsWithSources(docs: seq<Document>) returns (text: string)
    ensures text == FormattedContext(docs)
  {
    if |docs| == 0 {
      return NoContextFound;
    }
    var parts: seq<string> := [];
    for i := 0 to |docs|
      invariant |parts| == i
      invariant forall j :: 0 <= j < i ==> parts[j] == ContextPart(j, docs[j])
    {
      var sourceInfo := SourceHeader(i, docs[i]);
      var contentSnippet := Snippet(docs[i].pageContent);
      parts := parts + [sourceInfo + ":\n" + contentSnippet + "\n---\n"];
    }
    assert parts == ContextParts(docs);
    text := Join(parts, "\n");
  }

  /** The sentinel is returned exactly when nothing was retrieved: a non-empty result
      always starts with "Source 1", so the model never mistakes one for the other. */
  lemma FormattedContextSentinel(docs: seq<Document>)
    ensures FormattedContext(docs) == NoContextFound <==> docs == []
  {
    if docs != [] {
      var parts := ContextParts(docs);
      JoinStartsWithFirst(parts, "\n");
      assert parts[0][0] == 'S';
      assert FormattedContext(docs)[0] == 'S';
      assert NoContextFound[0] == 'N';
    }
  }

  /** Formatting one more document appends a newline and that document's part, numbered
      after all the earlier ones: parts come out in input order, numbered from 1. */
  lemma FormattedContextSnoc(docs: seq<Document>, d: Document)
    requires docs != []
    ensures FormattedContext(docs + [d]) == FormattedContext(docs) + "\n" + ContextPart(|docs|, d)
  {
    assert ContextParts(docs + [d]) == ContextParts(docs) + [ContextPart(|docs|, d)];
    JoinSnoc(ContextParts(docs), ContextPart(|docs|, d), "\n");
  }

  /** Every retrieved document's header and snippet appear in the formatted context, at
      the offset given by the parts before it (each followed by one newline). */
  lemma FormattedContextPartAt(docs: seq<Document>, i: nat)
    requires i < |docs|
    ensures var o := OffsetOf(ContextParts(docs), i, 1);
            var part := SourceHeader(i, docs[i]) + ":\n" + Snippet(docs[i].pageContent) + "\n---\n";
            && o + |part| <= |FormattedContext(docs)|
            && FormattedContext(docs)[o..o + |part|] == part
  {
    var parts := ContextParts(docs);
    assert FormattedContext(docs) == Join(parts, "\n");
    assert parts[i] == ContextPart(i, docs[i]);
    JoinPartAt(parts, "\n", i);
  }

  /** A document without `source` or `page` metadata is shown with "N/A" in its place. */
  lemma SourceHeaderMissingMetadata(i: nat, d: Document)
    requires "source" !in d.metadata && "page" !in d.metadata
    ensures SourceHeader(i, d) == "Source " + NatToString(i + 1) + " (File: N/A, Page: N/A)"
  {
  }

  // ---------------------------------------------------------------------------
  // The chain

  /** The fixed instructions of the prompt template, up to the context slot. */
  const PromptPreamble :=
    "\nYou are an AI assistant for answering questions based on the provided context.\n"
    + "Your task is to synthesize an answer from the retrieved document snippets.\n"
    + "If the context doesn't contain the answer, state that you cannot answer based on the provided information.\n"
    + "Do NOT use any external knowledge.\n"
    + "After providing the answer, list the sources you used from the context, including the Filename and Page number.\n"
    + "\nCONTEXT:\n"

  /** The prompt the chat model receives, with `{context}` and `{question}` filled in. */
  function PromptText(context: string, question: string): string
  {
    PromptPreamble + context + "\n\nQUESTION:\n" + question + "\n\nANSWER:\n"
  }

  /** The similarity search of a store: (store, k, question) to the top-k documents, or an error. */
  type Retriever = (VectorStore, nat, string) -> Result<seq<Document>>

  /** The chat model followed by the string output parser: (model name, prompt) to text, or an error. */
  type ChatModel = (string, string) -> Result<string>

  /** What `get_rag_chain` assembles: the chat model's name, the store and the retriever's k. */
  datatype RagChain = RagChain(chatModelName: string, store: VectorStore, k: nat)

  /** The dict the chain returns. */
  datatype ChainOutput = ChainOutput(question: string, contextDocs: seq<Document>, answer: string)

  /** `get_rag_chain`: refuses a falsy key, otherwise loads (or reuses) the store. */
  method GetRagChain(cache: VectorStoreCache, apiKey: Option<string>, chatModelName: string, k: nat)
      returns (r: Result<RagChain>)
    modifies cache
    ensures Falsy(apiKey) ==> r == Failure(ApiKeyMissing) && cache.instance == old(cache.instance)
    ensures !Falsy(apiKey) ==>
              && r.Success? && r.value.chatModelName == chatModelName && r.value.k == k
              && cache.instance == r.value.store
              && (old(cache.instance) != null ==> r.value.store == old(cache.instance))
              && (old(cache.instance) == null ==>
                    && fresh(r.value.store)
                    && r.value.store.collectionName == DefaultCollectionName
                    && r.value.store.persistDirectory == DefaultPersistDirectory
                    && r.value.store.embedding == GoogleEmbeddings(EmbeddingModel, apiKey.value))
  {
    if Falsy(apiKey) {
      return Failure(ApiKeyMissing);
    }
    var store := cache.GetVectorStoreInstance(apiKey, None, DefaultCollectionName, DefaultPersistDirectory);
    r := Success(RagChain(chatModelName, store.value, k));
  }

  /** Invoking the chain on `{"question": question}`: retrieve, format, prompt, answer. */
  function InvokeChain(chain: RagChain, question: string, retrieve: Retriever, llm: ChatModel): Result<ChainOutput>
  {
    match retrieve(chain.store, chain.k, question)
    case Failure(e) => Failure(e)
    case Success(docs) =>
      match llm(chain.chatModelName, PromptText(FormattedContext(docs), question))
      case Failure(e) => Failure(e)
      case Success(answer) => Success(ChainOutput(question, docs, answer))
  }

  /** The chain's output passes the question through unchanged, returns exactly what the
      retriever found (with the chain's k), and answers from the formatted documents. A
      failure of either foreign call is the chain's failure. */
  lemma ChainDataflow(chain: RagChain, question: string, retrieve: Retriever, llm: ChatModel)
    ensures var out := InvokeChain(chain, question, retrieve, llm);
            && (out.Success? <==>
                  && retrieve(chain.store, chain.k, question).Success?
                  && llm(chain.chatModelName,
                         PromptText(FormattedContext(retrieve(chain.store, chain.k, question).value), question)).Success?)
            && (out.Success? ==>
                  && out.value.question == question
                  && out.value.contextDocs == retrieve(chain.store, chain.k, question).value
                  && out.value.answer == llm(chain.chatModelName,
                                             PromptText(FormattedContext(out.value.contextDocs), question)).value)
  {
  }

  /** When nothing is retrieved the chat model still gets a prompt, with the sentinel as
      its context, and the output carries an empty document list. */
  lemma ChainWithNoDocuments(chain: RagChain, question: string, retrieve: Retriever, llm: ChatModel)
    requires retrieve(chain.store, chain.k, question) == Success([])
    requires llm(chain.chatModelName, PromptText(NoContextFound, question)).Success?
    ensures InvokeChain(chain, question, retrieve, llm)
            == Success(ChainOutput(question, [], llm(chain.chatModelName, PromptText(NoContextFound, question)).value))
  {
  }
}
