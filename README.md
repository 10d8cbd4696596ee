# chatbot — a Dafny model of the question router and its RAG pipeline

This project models the core of a chatbot that answers questions two ways.
A question that looks like a calculation goes to a LangChain agent that has
one tool, `Calculator`. Any other question goes to retrieval-augmented
generation (RAG): uploaded PDF, TXT and CSV files are cut into chunks, the
chunks are indexed in a FAISS vector store, the three nearest chunks are
retrieved, and the chat model answers from them with a list of sources.
When retrieval finds nothing and no documents are stored, the question falls
back to the agent.

Modules, one per source file, plus shared value types:

- `Wrappers`: the `Option`, `Result` and `Outcome` values used for
  collaborators that can fail.
- `Text`: the Python string operations the code relies on: `strip`, `in`,
  `split`, `join`, `lower`, and integer formatting.
- `Tools` (`modules/agents/tools.py`): the nine regular expressions of
  `is_math_query`, as a datatype of patterns, and the calculator's
  answer format.
- `Agents` (`modules/agents/agent.py`): `process_query`,
  `is_agent_query` and `_extract_tools_used`.
- `Documents`: LangChain `Document`s, their metadata, and the FAISS index,
  which is known only by the documents its docstore holds.
- `Disk`: the files the code reads and writes, as a map from path to
  contents.
- `DocumentProcessing` (`modules/rag/document_processor.py`): temporary
  staging of an upload, the extension dispatch, and the PDF, TXT and CSV
  loops.
- `VectorStores` (`modules/rag/vector_store.py`): the `VectorStore` class,
  with its index and its document list.
- `Retrieval` (`modules/rag/retriever.py`): the `RAGRetriever` class, the
  upload batch, and the prompt and sources built from the search hits.
- `Chat` (`chatbot.py`): the routing decision and the `ChatBot` class.

The outside world is passed in as parameters:

- the PDF, text and CSV readers and the text splitter are fields of
  `Readers`;
- the FAISS similarity search is a function of index, query and `k`;
- the chat model is a function of the system prompt and the user prompt;
- the embedding call is an `Outcome`;
- the agent's run on a query is a `Result<string>`.

The readers, the search, the chat model and the agent return a `Result`,
and the embedding call returns an `Outcome`. The model therefore covers the
success path and the exception path of the `try` around each of them. The
splitter returns its chunks directly. The except paths that belong to the
file system (saving the store, creating its directory) are listed under
"## Left out".

## Model

| member | source | states |
|---|---|---|
| Tools.AnyMatch | modules/agents/tools.py:63-67 | the loop over the rules answers true exactly when some rule of the list matches |
| Tools.IsMathQuery | modules/agents/tools.py:49-67 | `is_math_query` is true iff one of the nine patterns matches the query |
| Tools.PatternOrderIrrelevant | modules/agents/tools.py:63-67 | the verdict does not depend on the order of the patterns, only on which patterns are listed |
| Tools.InfixImpliesOperator | modules/agents/tools.py:52-58 | an infix rule over `+ - * /` is subsumed by the operator-symbol rule |
| Tools.NoPercentImpliesDigitPercent | modules/agents/tools.py:53-54 | the "n の m%" rule is subsumed by the "digits then %" rule |
| Tools.DigitPercentMatches | modules/agents/tools.py:54 | `\d+%` matches iff some digit is directly followed by `%` |
| Tools.DroppingSubsumedRules | modules/agents/tools.py:51-61 | removing the rules at lines 52, 57 and 58 leaves the verdict unchanged for every query |
| Tools.EssentialCovers | modules/agents/tools.py:51-61 | whatever one of the nine rules matches, one of the six remaining rules matches too |
| Tools.IsMathQueryCharacterized | modules/agents/tools.py:51-67 | a query is a calculation iff it has an operator symbol, a keyword, a digit followed by `%`, or digits around `×` or `÷` |
| Tools.OperatorCharIsMath | modules/agents/tools.py:56 | any of `+ - * / =` anywhere makes a calculation |
| Tools.DigitPercentIsMath | modules/agents/tools.py:54 | a digit followed by `%` makes a calculation |
| Tools.MathWordIsMath | modules/agents/tools.py:55 | any of the ten keywords makes a calculation |
| Tools.NoDigitMath | modules/agents/tools.py:51-61 | without digits, only an operator symbol or a keyword makes a calculation |
| Tools.TimesBetweenDigits | modules/agents/tools.py:59 | digits around `×`, with optional spaces, make a calculation |
| Tools.EmptyIsNotMath | modules/agents/tools.py:63-67 | the empty query is not a calculation |
| Tools.Calculate | modules/agents/tools.py:16-22 | the calculator's answer starts with "計算結果: " on success and with "計算エラー: " on an exception |
| Tools.CalculateRoundTrip | modules/agents/tools.py:16-22 | the result or the error can be read back from the answer, so success and failure are never confused |
| Agents.ExtractToolsUsed | modules/agents/agent.py:54-59 | at most one tool, always `Calculator`, reported iff the response mentions "Calculator" or "計算" |
| Agents.IsAgentQuery | modules/agents/agent.py:50-52 | agent queries are exactly the calculation queries |
| Agents.ProcessQuery | modules/agents/agent.py:34-48 | the result is always marked as an agent response; on success the answer is the agent's text and the tools are those extracted from it, so a tool is reported iff the run succeeded and its text mentions "Calculator" or "計算"; on an exception the answer is the error prefix plus the message and no tool is reported |
| Agents.CalculatorOutputReportsTool | modules/agents/agent.py:54-59 | an agent answer that is the calculator's own output reports the `Calculator` tool |
| Documents.MetaGet | modules/rag/retriever.py:74-78 | `metadata.get(key, default)` gives the stored value or the default |
| Documents.FromDocuments | modules/rag/vector_store.py:23 | a new index holds exactly the given documents |
| Documents.MergeFrom | modules/rag/vector_store.py:26-27 | merging appends the new index's documents after the old ones |
| DocumentProcessing.Basename | modules/rag/document_processor.py:22 | the base name is the suffix of the path after its last `/`, and holds no `/` |
| DocumentProcessing.FileExtension | modules/rag/document_processor.py:93 | the extension is the lower-cased suffix of the name after its last dot, and holds no dot |
| DocumentProcessing.ExtensionOfDotlessName | modules/rag/document_processor.py:93 | a name without a dot is its own extension, lower-cased |
| DocumentProcessing.ExtensionAfterLastDot | modules/rag/document_processor.py:93 | the extension is the lower-cased text after the last dot |
| DocumentProcessing.SourceOfStagedFile | modules/rag/document_processor.py:96 | a chunk's `source` is the name of the staged copy, `temp_<name>`, not the uploaded name |
| DocumentProcessing.PdfRecords | modules/rag/document_processor.py:24-35 | at most one record per page, and exactly one per page when every page reads and none is blank |
| DocumentProcessing.PdfRecordsSound | modules/rag/document_processor.py:24-35 | every PDF record is a readable, non-blank page under its 1-based page number, and pages appear in increasing order |
| DocumentProcessing.PdfRecordsComplete | modules/rag/document_processor.py:24-35 | every non-blank page before the first unreadable page gets a record |
| DocumentProcessing.PdfRecordsStopAtFailure | modules/rag/document_processor.py:20-37 | an extraction error ends the loop: no later page is recorded |
| DocumentProcessing.ProcessPdf | modules/rag/document_processor.py:17-39 | the page loop returns the split of the records of the pages read before the first error |
| DocumentProcessing.TxtRecords | modules/rag/document_processor.py:44-58 | a readable text file gives one record with the whole text as page 1; an unreadable one gives none |
| DocumentProcessing.ProcessTxt | modules/rag/document_processor.py:41-60 | the result is the split of the text record |
| DocumentProcessing.RowText | modules/rag/document_processor.py:71 | every `column: value` line of the row occurs in its text; a row without columns gives the empty text |
| DocumentProcessing.CsvRecord | modules/rag/document_processor.py:72-80 | a row's record holds its text and source, with `page` = index + 1 but `row_index` = index |
| DocumentProcessing.RowTextLines | modules/rag/document_processor.py:71 | a row's text has one line `column: value` per column, in header order |
| DocumentProcessing.CsvRecords | modules/rag/document_processor.py:70-83 | one record per row, in row order, with `page` = index + 1 and `row_index` = index; a parse error gives none |
| DocumentProcessing.ProcessCsv | modules/rag/document_processor.py:62-85 | the row loop returns the split of the row records |
| DocumentProcessing.Ingest | modules/rag/document_processor.py:102-112 | an upload fails exactly when its extension is not pdf, txt or csv, with the unsupported-format message |
| DocumentProcessing.ProcessUploadedFile | modules/rag/document_processor.py:91-116 | the result is the dispatch on the extension, and the temporary file is gone afterwards on every path |
| VectorStores.Saved | modules/rag/vector_store.py:63-67 | a save writes `index.faiss` and `documents.pkl` under the path and leaves other files alone |
| VectorStores.AddToIndex | modules/rag/vector_store.py:22-27 | the index after an add holds the old entries followed by the new documents |
| VectorStores.GuardedSearch | modules/rag/vector_store.py:29-51 | no index or a search error gives an empty result; otherwise the search's hits are returned |
| VectorStores.VectorStore.constructor | modules/rag/vector_store.py:10-13 | a new store has no index and no documents |
| VectorStores.VectorStore.CreateVectorStore | modules/rag/vector_store.py:15-27 | no documents is an error that changes nothing; otherwise the documents are appended before embedding, the index is created or merged only when embedding succeeds, and index and documents stay in step when it does |
| VectorStores.VectorStore.SimilaritySearch | modules/rag/vector_store.py:29-39 | the guarded search over documents |
| VectorStores.VectorStore.SimilaritySearchWithScore | modules/rag/vector_store.py:41-51 | the guarded search over scored hits |
| VectorStores.VectorStore.SaveVectorStore | modules/rag/vector_store.py:53-71 | without an index nothing is written; otherwise the index and document list are saved |
| VectorStores.VectorStore.LoadVectorStore | modules/rag/vector_store.py:73-95 | without an index file nothing changes and the answer is false; otherwise the index is loaded, the document list when present, and an unreadable list answers false |
| VectorStores.VectorStore.GetDocumentCount | modules/rag/vector_store.py:97-99 | the number of documents in the list |
| VectorStores.VectorStore.ClearVectorStore | modules/rag/vector_store.py:101-105 | no index and no documents afterwards |
| VectorStores.FailedEmbeddingDiverges | modules/rag/vector_store.py:20-23 | when the first embedding fails, the documents are counted although no index exists |
| VectorStores.SaveLoadRoundTrip | modules/rag/vector_store.py:53-95 | loading what was saved restores the index and documents, so counts and searches agree |
| Retrieval.SourceOf | modules/rag/retriever.py:76-80 | an entry carries the hit's score and its `source` and `page` metadata; missing metadata reads as "不明" |
| Retrieval.Tag | modules/rag/retriever.py:74 | a hit's tag names its source and its page |
| Retrieval.ContextOf | modules/rag/retriever.py:70-75 | the context is empty without hits, and every hit's tag and text occur in it |
| Retrieval.SourcesOf | modules/rag/retriever.py:71-80 | one source entry per hit, in search order |
| Retrieval.ContextOfAppend | modules/rag/retriever.py:73-75 | the context is the hits' tagged texts concatenated in order |
| Retrieval.SystemPromptAsksForNotFoundPhrase | modules/rag/retriever.py:83-89 | the system prompt tells the model to answer with the phrase the router tests when the documents do not hold the answer |
| Retrieval.UserPrompt | modules/rag/retriever.py:91-99 | the prompt holds the context and the question |
| Retrieval.Answer | modules/rag/retriever.py:49-121 | no index gives the upload hint and is not a RAG response; no hits give the not-found answer with no sources |
| Retrieval.AnswerWithResults | modules/rag/retriever.py:69-121 | with hits, the model is asked with the built prompt; its text comes back with one source per hit, and an exception gives the error text with no sources |
| Retrieval.SourcesOnlyWhenGrounded | modules/rag/retriever.py:49-121 | sources are returned only for a RAG response with an index, one per hit |
| Retrieval.SuccessMessage | modules/rag/retriever.py:39 | the success message reports the chunk count and names every processed file |
| Retrieval.Batch | modules/rag/retriever.py:24-33 | a completed batch names one file per upload; an aborted one names at least the failing file and never more files than were uploaded |
| Retrieval.BatchCollectsAll | modules/rag/retriever.py:27-33 | the batch completes iff every file is processed, and then it names every file |
| Retrieval.BatchAbortsAtFirstFailure | modules/rag/retriever.py:27-33 | an aborted batch stopped at its first failing file, with that file's error in the message |
| Retrieval.BatchAbortSticks | modules/rag/retriever.py:32-33 | files after a failure are never processed |
| Retrieval.RAGRetriever.constructor | modules/rag/retriever.py:10-17 | a new retriever has an empty store |
| Retrieval.RAGRetriever.ProcessBatch | modules/rag/retriever.py:27-33 | the loop computes the batch, and the temporary files of the processed files are removed |
| Retrieval.RAGRetriever.AddDocuments | modules/rag/retriever.py:19-43 | no files, a failing file or no content leave the store unchanged with their message; otherwise the chunks are appended, and the index is updated and saved with the success message only when embedding succeeds |
| Retrieval.RAGRetriever.LoadExistingDocuments | modules/rag/retriever.py:45-47 | loads the store saved at `./data/vector_store`: without a readable index file nothing changes and the answer is false; otherwise the index is loaded, the document list replaces the documents when it reads, stays as it was when absent, and an unreadable list answers false |
| Retrieval.RAGRetriever.RetrieveAndGenerate | modules/rag/retriever.py:49-121 | the loop over the hits computes `Answer` for the current index |
| Retrieval.RAGRetriever.GetDocumentCount | modules/rag/retriever.py:123-125 | the store's document count |
| Retrieval.RAGRetriever.ClearDocuments | modules/rag/retriever.py:127-130 | the store is emptied and the cleared message returned |
| Chat.Route | chatbot.py:14-65 | a blank query gets mode none; only the rag mode carries sources; only the agents mode reports tools; the agents answer is the agent's, the rag answer is retrieval's |
| Chat.BlankQueryConsultsNothing | chatbot.py:18-25 | a blank query gets the fixed prompt whatever the agent, retrieval or the count would give |
| Chat.MathQueryGoesToAgent | chatbot.py:27-35 | a calculation goes to the agent with no sources, and retrieval plays no part |
| Chat.DocumentsMeanRag | chatbot.py:37-65 | with documents counted, every other query is answered by retrieval, found or not |
| Chat.FallbackWithoutDocuments | chatbot.py:40-50 | without documents, a query falls back to the agent iff retrieval was not grounded or said it found nothing |
| Chat.NotFoundAnswersSayNotFound | modules/rag/retriever.py:52-67 | both retrieval failure answers contain the not-found phrase the router tests |
| Chat.EmptyStoreFallsBackToAgent | chatbot.py:37-50 | an empty store sends every non-blank non-calculation to the agent |
| Chat.NothingRelevantStaysRag | chatbot.py:40-57 | with an index and documents, a query with no hits gets retrieval's not-found answer in rag mode, not the agent |
| Chat.CountedWithoutIndexAnswersUploadHint | chatbot.py:40-57 | documents counted without an index give retrieval's upload hint in rag mode |
| Chat.PercentQuestionIsCalculation | chatbot.py:28 | "what is 15% of 320?" goes to the agent whatever the store holds |
| Chat.ChatBot.constructor | chatbot.py:7-12 | without a readable saved index the store is empty; otherwise the index is loaded, and the documents are the saved list when it reads and empty when it is absent or unreadable |
| Chat.ChatBot.ProcessQuery | chatbot.py:14-65 | the method computes `Route`, running retrieval only for a non-blank non-calculation |
| Chat.ChatBot.AddDocuments | chatbot.py:67-69 | adding documents never removes stored documents |
| Chat.ChatBot.ClearDocuments | chatbot.py:71-73 | the store is emptied |
| Chat.ChatBot.GetDocumentCount | chatbot.py:75-77 | the store's document count |
| Chat.ChatBot.GetSystemStatus | chatbot.py:83-89 | retrieval is available iff there is an index; the agent is always available |
| Chat.IndexWithoutDocumentListCountsNothing | chatbot.py:7-12 | a saved index without its document list loads as available retrieval over zero counted documents |
| Chat.ClearedDocumentsReturnOnRestart | chatbot.py:7-73 | clearing does not delete the saved store, so a restart brings the documents back |

## Left out

- `Text.IsDigit` accepts ASCII and full-width digits only. Python's `\d` also accepts the other Unicode decimal digits.
- `Text.Lower` lower-cases ASCII letters only. Python's `str.lower` covers all of Unicode.
- Conversation memory is left out: `AgentManager.clear_memory`, `get_memory` and `ChatBot.clear_conversation_history`. The agent's run is a parameter, so what the memory contributes to it is not modelled.
- The agent's reasoning, `LLMMathChain` and the chat model are left out. Their outcomes are parameters.
- The chunking of `RecursiveCharacterTextSplitter` is a parameter (`Readers.split`). Chunk size and overlap are not modelled.
- PyPDF2, pandas and pickle are parameters or opaque values. FAISS's `index.pkl` is folded into `index.faiss`.
- `os.makedirs` is not modelled. Failures to write, save or delete a file are not modelled either.
- An exception raised by pandas part-way through the rows is modelled as a parse error that gives no rows.
- `print` logging is left out.
- The except paths of `save_vector_store` and the `os.makedirs` call in `load_vector_store` are not modelled, because file-system failures are left out.
- `VectorStores.VectorStore.SaveVectorStore` stores the document list and the index as values. It does not model pickle encoding.
- `Chat.ChatBot.AddDocuments` states only that documents are never removed. The full cases are on `RAGRetriever.AddDocuments`.

Behaviour of the code that the model keeps as it is:

- `clear_documents` empties the store in memory but keeps the saved files, so a restart loads the documents again.
- CSV chunks carry a 0-based `row_index` beside a 1-based `page`.
- One failing file ends the whole upload batch, and the chunks already read are discarded.
- The success message and the context tags contain the two characters backslash and `n` rather than a line break.
