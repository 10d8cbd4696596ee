/** `ChatBot` (`chatbot.py`): routes each query to the agent or to retrieval,
    and exposes the document operations and the system status. */
module Chat {
  import opened Wrappers
  import opened Text
  import opened Documents
  import opened Disk
  import opened DocumentProcessing
  import opened VectorStores
  import opened Retrieval
  import Agents
  import Tools

  /** The `mode` of a response: "none", "agents" or "rag". */
  datatype Mode = NoneMode | AgentsMode | RagMode

  /** The dictionary `process_query` returns. */
  datatype Response = Response(answer: string, mode: Mode, sources: seq<SourceEntry>, toolsUsed: seq<string>)

  const PleaseAskMessage: string := "質問を入力してください。"

  /** The routing decision of `process_query`, given the outcome of the agent's
      run on the query, what retrieval answered and the document count. */
  function Route(query: string, agentRun: Result<string>, rag: RagResult, documentCount: nat): (r: Response)
    ensures r.mode == NoneMode <==> IsBlank(query)
    ensures r.sources != [] ==> r.mode == RagMode
    ensures r.mode != AgentsMode ==> r.toolsUsed == []
    ensures r.mode == AgentsMode ==> r.answer == Agents.ProcessQuery(agentRun).answer
    ensures r.mode == RagMode ==> r.answer == rag.answer && r.sources == rag.sources
  {
    if IsBlank(query) then
      Response(PleaseAskMessage, NoneMode, [], [])
    else if Agents.IsAgentQuery(query) then
      var result := Agents.ProcessQuery(agentRun);
      Response(result.answer, AgentsMode, [], result.toolsUsed)
    else if !rag.isRagResponse || Contains(rag.answer, NotFoundPhrase) then
      if documentCount == 0 then
        var general := Agents.ProcessQuery(agentRun);
        Response(general.answer, AgentsMode, [], general.toolsUsed)
      else
        Response(rag.answer, RagMode, rag.sources, [])
    else
      Response(rag.answer, RagMode, rag.sources, [])
  }

  /** A blank query gets the fixed prompt and consults neither the agent, nor
      retrieval, nor the document count. */
  lemma BlankQueryConsultsNothing(query: string, run1: Result<string>, run2: Result<string>,
                                  rag1: RagResult, rag2: RagResult, count1: nat, count2: nat)
    requires IsBlank(query)
    ensures Route(query, run1, rag1, count1) == Route(query, run2, rag2, count2)
    ensures Route(query, run1, rag1, count1) == Response(PleaseAskMessage, NoneMode, [], [])
  {
  }

  /** A calculation goes to the agent, without sources, and retrieval and the
      document count play no part. */
  lemma MathQueryGoesToAgent(query: string, run: Result<string>, rag1: RagResult, rag2: RagResult,
                             count1: nat, count2: nat)
    requires !IsBlank(query) && Tools.IsMathQuery(query)
    ensures Route(query, run, rag1, count1) == Route(query, run, rag2, count2)
    ensures var r := Route(query, run, rag1, count1);
      r.mode == AgentsMode && r.sources == [] && r.toolsUsed == Agents.ProcessQuery(run).toolsUsed
  {
  }

  /** With documents counted, a non-calculation is always answered by
      retrieval, found or not: the not-found test matters only without
      documents. */
  lemma DocumentsMeanRag(query: string, run: Result<string>, rag: RagResult, count: nat)
    requires !IsBlank(query) && !Tools.IsMathQuery(query) && count > 0
    ensures Route(query, run, rag, count) == Response(rag.answer, RagMode, rag.sources, [])
  {
  }

  /** Without documents, a non-calculation falls back to the agent exactly
      when retrieval was not grounded or said it found nothing. */
  lemma FallbackWithoutDocuments(query: string, run: Result<string>, rag: RagResult)
    requires !IsBlank(query) && !Tools.IsMathQuery(query)
    ensures Route(query, run, rag, 0).mode == AgentsMode <==>
      !rag.isRagResponse || Contains(rag.answer, NotFoundPhrase)
    ensures Route(query, run, rag, 0).mode == AgentsMode ==> Route(query, run, rag, 0).sources == []
  {
  }

  lemma NotFoundAnswersSayNotFound()
    ensures Contains(NotFoundAnswer, NotFoundPhrase)
    ensures Contains(NotUploadedAnswer, NotFoundPhrase)
  {
    assert OccursAt(NotFoundAnswer, NotFoundPhrase, 0);
    assert OccursAt(NotUploadedAnswer, NotFoundPhrase, 0);
  }

  /** An empty store sends every non-blank, non-calculation query to the
      agent. */
  lemma EmptyStoreFallsBackToAgent(query: string, run: Result<string>,
                                   search: (Index, string, nat) -> Result<seq<Hit>>,
                                   complete: (string, string) -> Result<string>)
    requires !IsBlank(query) && !Tools.IsMathQuery(query)
    ensures var r := Route(query, run, Answer(None, query, search, complete), 0);
      r.mode == AgentsMode && r.sources == [] && r.answer == Agents.ProcessQuery(run).answer
  {
  }

  /** With an index and documents, a query that retrieves nothing is answered
      by retrieval with the not-found text and no sources; it does not fall
      back to the agent. */
  lemma NothingRelevantStaysRag(index: Index, count: nat, query: string, run: Result<string>,
                                search: (Index, string, nat) -> Result<seq<Hit>>,
                                complete: (string, string) -> Result<string>)
    requires !IsBlank(query) && !Tools.IsMathQuery(query) && count > 0
    requires search(index, query, TopK).Err? || search(index, query, TopK).value == []
    ensures Route(query, run, Answer(Some(index), query, search, complete), count)
      == Response(NotFoundAnswer, RagMode, [], [])
  {
    NotFoundAnswersSayNotFound();
  }

  /** When the documents are counted but there is no index (the embedding
      failed), retrieval's upload hint is returned in `rag` mode instead of
      the agent's fallback. */
  lemma CountedWithoutIndexAnswersUploadHint(count: nat, query: string, run: Result<string>,
                                             search: (Index, string, nat) -> Result<seq<Hit>>,
                                             complete: (string, string) -> Result<string>)
    requires !IsBlank(query) && !Tools.IsMathQuery(query) && count > 0
    ensures Route(query, run, Answer(None, query, search, complete), count)
      == Response(NotUploadedAnswer, RagMode, [], [])
  {
  }

  /** A percent question is a calculation whatever the store holds. */
  lemma PercentQuestionIsCalculation(run: Result<string>, rag: RagResult, count: nat)
    ensures Route("what is 15% of 320?", run, rag, count).mode == AgentsMode
  {
    var q := "what is 15% of 320?";
    assert IsDigit(q[9]) && q[10] == '%';
    Tools.DigitPercentIsMath(q);
    assert !IsSpace(q[0]);
  }

  /** `get_system_status`. */
  datatype Status = Status(documentCount: nat, ragAvailable: bool, agentsAvailable: bool)

  class ChatBot {
    const retriever: RAGRetriever

    /** Builds the collaborators and loads the saved vector store, if any. */
    constructor (fs: FileSystem)
      ensures fresh(retriever) && fresh(retriever.store)
      ensures var ixPath, docsPath := IndexFile(VectorStorePath), DocumentsFile(VectorStorePath);
        if ixPath !in fs.files || !fs.files[ixPath].SavedIndex? then
          retriever.store.index == None && retriever.store.documents == []
        else
          && retriever.store.index == Some(fs.files[ixPath].index)
          && retriever.store.documents ==
               if docsPath in fs.files && fs.files[docsPath].SavedDocuments? then fs.files[docsPath].docs else []
    {
      retriever := new RAGRetriever();
      new;
      var loaded := retriever.store.LoadVectorStore(fs, VectorStorePath);
    }

    /** `process_query`: retrieval is run only for a non-blank query that is
        not a calculation. */
    method ProcessQuery(query: string, agentRun: Result<string>,
                        search: (Index, string, nat) -> Result<seq<Hit>>,
                        complete: (string, string) -> Result<string>) returns (r: Response)
      ensures r == Route(query, agentRun, Answer(retriever.store.index, query, search, complete),
                         |retriever.store.documents|)
    {
      if IsBlank(query) {
        return Response(PleaseAskMessage, NoneMode, [], []);
      }
      if Agents.IsAgentQuery(query) {
        var result := Agents.ProcessQuery(agentRun);
        return Response(result.answer, AgentsMode, [], result.toolsUsed);
      }
      var ragResult := retriever.RetrieveAndGenerate(query, search, complete);
      if !ragResult.isRagResponse || Contains(ragResult.answer, NotFoundPhrase) {
        if retriever.GetDocumentCount() == 0 {
          var generalResult := Agents.ProcessQuery(agentRun);
          return Response(generalResult.answer, AgentsMode, [], generalResult.toolsUsed);
        } else {
          return Response(ragResult.answer, RagMode, ragResult.sources, []);
        }
      }
      r := Response(ragResult.answer, RagMode, ragResult.sources, []);
    }

    /** `add_documents`: delegates to the retriever; documents are only ever
        added. */
    method AddDocuments(uploads: Option<seq<Upload>>, fs: FileSystem, readers: Readers, embedding: Outcome)
      returns (msg: string)
      modifies retriever.store, fs
      ensures old(retriever.store.documents) <= retriever.store.documents
    {
      if uploads.Some? {
        BatchCollectsAll(uploads.value, Ingestor(readers));
      }
      msg := retriever.AddDocuments(uploads, fs, readers, embedding);
    }

    /** `clear_documents`: empties the store and leaves the saved files alone. */
    method ClearDocuments() returns (msg: string)
      modifies retriever.store
      ensures retriever.store.index == None && retriever.store.documents == [] && msg == ClearedMessage
    {
      msg := retriever.ClearDocuments();
    }

    /** `get_document_count`. */
    function GetDocumentCount(): (n: nat)
      reads retriever.store
      ensures n == |retriever.store.documents|
    {
      retriever.GetDocumentCount()
    }

    /** `get_system_status`: retrieval is available exactly when there is an
        index; the calculator tool makes the agent always available. */
    function GetSystemStatus(): (s: Status)
      reads retriever.store
      ensures s.documentCount == |retriever.store.documents|
      ensures s.ragAvailable <==> retriever.store.index.Some?
      ensures s.agentsAvailable
    {
      Status(GetDocumentCount(), retriever.store.index.Some?, |Tools.ToolNames| > 0)
    }
  }

  /** Clearing the documents does not delete the saved store, so the next
      start loads them again. */
  method ClearedDocumentsReturnOnRestart(fs: FileSystem, ix: Index, docs: seq<Document>)
    returns (afterClear: nat, afterRestart: nat)
    requires fs.files == map[IndexFile(VectorStorePath) := SavedIndex(ix), DocumentsFile(VectorStorePath) := SavedDocuments(docs)]
    ensures afterClear == 0 && afterRestart == |docs|
  {
    var bot := new ChatBot(fs);
    var msg := bot.ClearDocuments();
    afterClear := bot.GetDocumentCount();
    var restarted := new ChatBot(fs);
    afterRestart := restarted.GetDocumentCount();
  }

  /** A saved index without its document list loads as an available index
      over zero counted documents. */
  method IndexWithoutDocumentListCountsNothing(fs: FileSystem, ix: Index) returns (status: Status)
    requires fs.files == map[IndexFile(VectorStorePath) := SavedIndex(ix)]
    ensures status == Status(0, true, true)
  {
    var bot := new ChatBot(fs);
    status := bot.GetSystemStatus();
  }
}
