/** `RAGRetriever` (`modules/rag/retriever.py`): batch ingestion into the
    vector store, and grounded answers built from the top search results.
    The chat model is a collaborator: a function from the system and user
    prompts to a completion or an error. */
module Retrieval {
  import opened Wrappers
  import opened Text
  import opened Documents
  import opened Disk
  import opened DocumentProcessing
  import opened VectorStores

  /** One entry of the `sources` list. */
  datatype SourceEntry = SourceEntry(source: MetaValue, page: MetaValue, score: real)

  /** The dictionary `retrieve_and_generate` returns. */
  datatype RagResult = RagResult(answer: string, sources: seq<SourceEntry>, isRagResponse: bool)

  const Unknown: MetaValue := Str("不明")

  /** The phrase the router looks for in an answer. */
  const NotFoundPhrase: string := "資料に該当箇所が見当たりません"
  const NotUploadedAnswer: string := "資料に該当箇所が見当たりません。まず文書をアップロードしてください。"
  const NotFoundAnswer: string := "資料に該当箇所が見当たりません。"
  const GenerationErrorPrefix: string := "回答生成中にエラーが発生しました: "

  const NoFilesMessage: string := "ファイルが選択されていません。"
  const NoContentMessage: string := "処理可能なコンテンツが見つかりませんでした。"
  const CreateErrorPrefix: string := "ベクトルストア作成中にエラーが発生しました: "
  const ClearedMessage: string := "全ての文書がクリアされました。"

  const SystemPrompt: string :=
    "あなたは親切なアシスタントです。提供された文書の内容のみを基に、正確に質問に答えてください。\n\n"
    + "重要な指示:\n"
    + "1. 提供された文書の内容のみを使用して回答してください\n"
    + "2. 文書に記載されていない情報は推測しないでください\n"
    + "3. 不明な点がある場合は、「" + NotFoundPhrase + "」と答えてください\n"
    + "4. 回答の根拠となる文書名とページ番号を明記してください"

  /** The system prompt tells the model to answer with the very phrase the
      router looks for when the documents do not hold the answer. */
  lemma SystemPromptAsksForNotFoundPhrase()
    ensures Contains(SystemPrompt, NotFoundPhrase)
  {
    var head := "あなたは親切なアシスタントです。提供された文書の内容のみを基に、正確に質問に答えてください。\n\n"
      + "重要な指示:\n"
      + "1. 提供された文書の内容のみを使用して回答してください\n"
      + "2. 文書に記載されていない情報は推測しないでください\n"
      + "3. 不明な点がある場合は、「";
    var tail := "」と答えてください\n" + "4. 回答の根拠となる文書名とページ番号を明記してください";
    ContainsMiddle(head, NotFoundPhrase, tail);
    assert SystemPrompt == head + NotFoundPhrase + tail;
  }

  /** The user prompt: the context, then the question. */
  function UserPrompt(context: string, query: string): (r: string)
    ensures Contains(r, context) && Contains(r, query)
  {
    var head, middle, tail := "以下の文書を参考に質問に答えてください:\n\n【参考文書】\n", "\n\n【質問】\n", "\n\n【回答】";
    ContainsMiddle(head, context, middle + query + tail);
    ContainsMiddle(head + context + middle, query, tail);
    assert head + context + (middle + query + tail) == head + context + middle + query + tail;
    head + context + middle + query + tail
  }

  /** The source entry of a hit: its `source` and `page` metadata, read as
      "unknown" when missing, and its score. */
  function SourceOf(h: Hit): (r: SourceEntry)
    ensures r.score == h.score
    ensures "source" in h.doc.metadata ==> r.source == h.doc.metadata["source"]
    ensures "source" !in h.doc.metadata ==> r.source == Unknown
    ensures "page" in h.doc.metadata ==> r.page == h.doc.metadata["page"]
    ensures "page" !in h.doc.metadata ==> r.page == Unknown
  {
    SourceEntry(MetaGet(h.doc.metadata, "source", Unknown), MetaGet(h.doc.metadata, "page", Unknown), h.score)
  }

  /** The tag put before a hit's text: it names the hit's source and page.
      The separators are the two characters backslash and `n`, as the
      source writes them. */
  function Tag(h: Hit): (r: string)
    ensures Contains(r, Render(SourceOf(h).source)) && Contains(r, Render(SourceOf(h).page))
  {
    var e := SourceOf(h);
    var open, mid, close := "\\n\\n【出典: ", " - ページ", "】\\n";
    var source, page := Render(e.source), Render(e.page);
    ContainsMiddle(open, source, mid + page + close);
    ContainsMiddle(open + source + mid, page, close);
    assert open + source + (mid + page + close) == open + source + mid + page + close;
    open + source + mid + page + close
  }

  function Block(h: Hit): string {
    Tag(h) + h.doc.pageContent
  }

  /** The strings `f(x)` of the elements, concatenated in order. */
  function Concat<T>(f: T -> string, xs: seq<T>): string {
    if |xs| == 0 then "" else Concat(f, xs[..|xs| - 1]) + f(xs[|xs| - 1])
  }

  /** Each element's string occurs in the concatenation. */
  lemma {:induction false} ConcatContains<T>(f: T -> string, xs: seq<T>)
    ensures forall i | 0 <= i < |xs| :: Contains(Concat(f, xs), f(xs[i]))
  {
    if |xs| > 0 {
      var n := |xs|;
      var init := xs[..n - 1];
      ConcatContains(f, init);
      forall i | 0 <= i < n
        ensures Contains(Concat(f, xs), f(xs[i]))
      {
        if i < n - 1 {
          assert init[i] == xs[i];
          ContainsAppend(Concat(f, init), f(xs[n - 1]), f(xs[i]));
        } else {
          ContainsSelf(f(xs[i]));
          ContainsAppend(Concat(f, init), f(xs[i]), f(xs[i]));
        }
      }
    }
  }

  /** The context: each hit's tag and text, in search order; every hit's
      block occurs in it. */
  function ContextOf(hits: seq<Hit>): (r: string)
    ensures |hits| == 0 ==> r == ""
    ensures forall i | 0 <= i < |hits| :: Contains(r, Block(hits[i]))
  {
    ConcatContains(Block, hits);
    Concat(Block, hits)
  }

  /** The sources list built beside the context: one entry per hit, in the
      same order. */
  function SourcesOf(hits: seq<Hit>): (r: seq<SourceEntry>)
    ensures |r| == |hits|
    ensures forall i | 0 <= i < |hits| :: r[i] == SourceOf(hits[i])
  {
    if |hits| == 0 then []
    else
      var init := hits[..|hits| - 1];
      assert forall i | 0 <= i < |init| :: init[i] == hits[i];
      SourcesOf(init) + [SourceOf(hits[|hits| - 1])]
  }

  /** One more hit: its tag and text extend the context, its entry the
      sources. */
  lemma HitStep(hits: seq<Hit>, i: nat)
    requires i < |hits|
    ensures ContextOf(hits[..i + 1]) == ContextOf(hits[..i]) + Tag(hits[i]) + hits[i].doc.pageContent
    ensures SourcesOf(hits[..i + 1]) == SourcesOf(hits[..i]) + [SourceOf(hits[i])]
  {
    assert hits[..i + 1][..i] == hits[..i];
    var c := ContextOf(hits[..i]);
    assert c + Block(hits[i]) == c + Tag(hits[i]) + hits[i].doc.pageContent;
  }

  lemma {:induction false} ConcatAppend<T>(f: T -> string, a: seq<T>, b: seq<T>)
    ensures Concat(f, a + b) == Concat(f, a) + Concat(f, b)
  {
    if |b| > 0 {
      var ab := a + b;
      var init := b[..|b| - 1];
      assert ab[..|ab| - 1] == a + init;
      assert ab[|ab| - 1] == b[|b| - 1];
      ConcatAppend(f, a, init);
      var x, y, z := Concat(f, a), Concat(f, init), f(b[|b| - 1]);
      assert (x + y) + z == x + (y + z);
    } else {
      assert a + b == a;
    }
  }

  /** The context of a concatenation is the concatenation of the contexts: one
      block per hit, in order. */
  lemma ContextOfAppend(a: seq<Hit>, b: seq<Hit>)
    ensures ContextOf(a + b) == ContextOf(a) + ContextOf(b)
  {
    ConcatAppend(Block, a, b);
  }

  /** What `retrieve_and_generate` answers for a store whose index is `index`. */
  function Answer(index: Option<Index>, query: string, search: (Index, string, nat) -> Result<seq<Hit>>,
                  complete: (string, string) -> Result<string>): (r: RagResult)
    ensures index.None? ==> r == RagResult(NotUploadedAnswer, [], false)
    ensures index.Some? ==> r.isRagResponse
    ensures index.Some? && GuardedSearch(index, query, TopK, search) == [] ==> r == RagResult(NotFoundAnswer, [], true)
  {
    if index.None? then RagResult(NotUploadedAnswer, [], false)
    else
      var hits := GuardedSearch(index, query, TopK, search);
      if hits == [] then RagResult(NotFoundAnswer, [], true)
      else match complete(SystemPrompt, UserPrompt(ContextOf(hits), query))
        case Ok(answer) => RagResult(answer, SourcesOf(hits), true)
        case Err(e) => RagResult(GenerationErrorPrefix + e, [], true)
  }

  /** With results and a completion, the answer is the model's text, the
      sources mirror the results, and the prompt carried every result. */
  lemma AnswerWithResults(index: Index, query: string, search: (Index, string, nat) -> Result<seq<Hit>>,
                          complete: (string, string) -> Result<string>)
    requires search(index, query, TopK).Ok? && search(index, query, TopK).value != []
    ensures var hits := search(index, query, TopK).value;
      var r := Answer(Some(index), query, search, complete);
      match complete(SystemPrompt, UserPrompt(ContextOf(hits), query))
      case Ok(text) =>
        && r == RagResult(text, SourcesOf(hits), true)
        && |r.sources| == |hits|
        && forall i :: 0 <= i < |hits| ==> r.sources[i] == SourceOf(hits[i])
      case Err(e) => r == RagResult(GenerationErrorPrefix + e, [], true)
  {
  }

  /** Only a grounded answer carries sources. */
  lemma SourcesOnlyWhenGrounded(index: Option<Index>, query: string, search: (Index, string, nat) -> Result<seq<Hit>>,
                                complete: (string, string) -> Result<string>)
    ensures var r := Answer(index, query, search, complete);
      r.sources != [] ==> r.isRagResponse && index.Some? && |r.sources| == |GuardedSearch(index, query, TopK, search)|
  {
    if index.Some? {
    }
  }

  /** Where a batch of uploads stands after some of its files. */
  datatype BatchState =
    | Collecting(docs: seq<Document>, names: seq<string>)
    | Aborted(message: string, names: seq<string>)

  function FileErrorMessage(name: string, error: string): string {
    "ファイル " + name + " の処理中にエラーが発生しました: " + error
  }

  /** The success message reports the chunk count and names every file. */
  function SuccessMessage(names: seq<string>, docs: seq<Document>): (r: string)
    ensures Contains(r, NatToString(|docs|))
    ensures forall j | 0 <= j < |names| :: Contains(r, names[j])
  {
    var head := "成功: " + NatToString(|names|) + "個のファイルを処理し、";
    var tail := "個のチャンクを作成しました。\\n処理されたファイル: " + Join(", ", names);
    ContainsMiddle(head, NatToString(|docs|), tail);
    JoinContains(", ", names);
    ContainsAllAfter(head + NatToString(|docs|) + "個のチャンクを作成しました。\\n処理されたファイル: ", Join(", ", names), names);
    assert head + NatToString(|docs|) + tail
      == head + NatToString(|docs|) + "個のチャンクを作成しました。\\n処理されたファイル: " + Join(", ", names);
    head + NatToString(|docs|) + tail
  }

  /** The loop of `add_documents`: chunks and names of the files processed so
      far, or the error of the first file that failed and the names of the
      files that were staged. */
  function Batch(files: seq<Upload>, ingest: Upload -> Result<seq<Document>>): (b: BatchState)
    ensures b.Collecting? ==> |b.names| == |files|
    ensures b.Aborted? ==> 0 < |b.names| <= |files|
  {
    if |files| == 0 then Collecting([], [])
    else
      var last := files[|files| - 1];
      match Batch(files[..|files| - 1], ingest)
      case Aborted(m, ns) => Aborted(m, ns)
      case Collecting(ds, ns) =>
        match ingest(last)
        case Err(e) => Aborted(FileErrorMessage(last.name, e), ns + [last.name])
        case Ok(chunks) => Collecting(ds + chunks, ns + [last.name])
  }

  /** `process_uploaded_file` as the batch loop sees it. */
  function Ingestor(readers: Readers): Upload -> Result<seq<Document>> {
    file => Ingest(file, readers)
  }

  /** The names of the uploads, in order. */
  function Names(files: seq<Upload>): (r: seq<string>)
    ensures |r| == |files|
  {
    if |files| == 0 then [] else Names(files[..|files| - 1]) + [files[|files| - 1].name]
  }

  /** A batch collects exactly when every file is supported, and then the
      names are those of all the files. */
  lemma {:induction false} BatchCollectsAll(files: seq<Upload>, ingest: Upload -> Result<seq<Document>>)
    ensures Batch(files, ingest).Collecting? <==> forall i :: 0 <= i < |files| ==> ingest(files[i]).Ok?
    ensures Batch(files, ingest).Collecting? ==> Batch(files, ingest).names == Names(files)
  {
    if |files| > 0 {
      var n := |files|;
      var init := files[..n - 1];
      BatchCollectsAll(init, ingest);
      assert forall i :: 0 <= i < n - 1 ==> init[i] == files[i];
    }
  }

  /** An aborted batch stopped at its first failing file, with that file's
      error, after staging the files up to it. */
  lemma {:induction false} BatchAbortsAtFirstFailure(files: seq<Upload>, ingest: Upload -> Result<seq<Document>>)
    requires Batch(files, ingest).Aborted?
    ensures var b := Batch(files, ingest);
      var j := |b.names| - 1;
      && 0 <= j < |files|
      && b.names == Names(files[..j + 1])
      && (forall i :: 0 <= i < j ==> ingest(files[i]).Ok?)
      && ingest(files[j]).Err?
      && b.message == FileErrorMessage(files[j].name, ingest(files[j]).message)
  {
    var n := |files|;
    var init := files[..n - 1];
    BatchStep(files, ingest, n - 1);
    assert files[..n] == files;
    if Batch(init, ingest).Aborted? {
      BatchAbortsAtFirstFailure(init, ingest);
      var j := |Batch(init, ingest).names| - 1;
      assert init[..j + 1] == files[..j + 1];
      forall i | 0 <= i <= j
        ensures init[i] == files[i]
      {
      }
    } else {
      BatchCollectsAll(init, ingest);
      forall i | 0 <= i < n - 1
        ensures ingest(files[i]).Ok?
      {
        assert init[i] == files[i];
      }
    }
  }

  /** Files after the one that aborted a batch are not looked at. */
  lemma {:induction false} BatchAbortSticks(files: seq<Upload>, ingest: Upload -> Result<seq<Document>>, i: nat)
    requires i <= |files|
    requires Batch(files[..i], ingest).Aborted?
    ensures Batch(files, ingest) == Batch(files[..i], ingest)
  {
    if i < |files| {
      var n := |files|;
      assert files[..n - 1][..i] == files[..i];
      BatchAbortSticks(files[..n - 1], ingest, i);
    } else {
      assert files[..i] == files;
    }
  }

  /** The staged files of the named uploads. */
  function TempPaths(names: seq<string>): set<string> {
    set n | n in names :: TempPath(n)
  }

  /** One more file: the batch of a prefix extended by the next upload. */
  lemma BatchStep(files: seq<Upload>, ingest: Upload -> Result<seq<Document>>, i: nat)
    requires i < |files|
    ensures Batch(files[..i + 1], ingest) ==
      match Batch(files[..i], ingest)
      case Aborted(m, ns) => Aborted(m, ns)
      case Collecting(ds, ns) =>
        match ingest(files[i])
        case Err(e) => Aborted(FileErrorMessage(files[i].name, e), ns + [files[i].name])
        case Ok(chunks) => Collecting(ds + chunks, ns + [files[i].name])
  {
    assert files[..i + 1][..i] == files[..i];
  }

  /** Removing the staged file of one more name. */
  lemma TempPathsAppend(files: map<string, Blob>, names: seq<string>, name: string)
    ensures files - TempPaths(names) - {TempPath(name)} == files - TempPaths(names + [name])
  {
    assert TempPaths(names + [name]) == TempPaths(names) + {TempPath(name)};
  }

  /** `uploaded_files` was given and not empty. */
  predicate Submitted(uploads: Option<seq<Upload>>) {
    uploads.Some? && uploads.value != []
  }

  class RAGRetriever {
    const store: VectorStore

    constructor ()
      ensures fresh(store) && store.index == None && store.documents == []
    {
      store := new VectorStore();
    }

    /** The loop of `add_documents`: process the uploads in order, stop at
        the first that fails, and remove every staged file. */
    method ProcessBatch(files: seq<Upload>, fs: FileSystem, readers: Readers) returns (b: BatchState)
      modifies fs
      ensures b == Batch(files, Ingestor(readers))
      ensures fs.files == old(fs.files) - TempPaths(b.names)
    {
      var allDocuments: seq<Document> := [];
      var processedFiles: seq<string> := [];
      var i := 0;
      while i < |files|
        invariant 0 <= i <= |files|
        invariant Batch(files[..i], Ingestor(readers)) == Collecting(allDocuments, processedFiles)
        invariant fs.files == old(fs.files) - TempPaths(processedFiles)
      {
        var file := files[i];
        BatchStep(files, Ingestor(readers), i);
        TempPathsAppend(old(fs.files), processedFiles, file.name);
        var documents := ProcessUploadedFile(fs, file, readers);
        assert Ingestor(readers)(file) == documents;
        if documents.Err? {
          BatchAbortSticks(files, Ingestor(readers), i + 1);
          return Aborted(FileErrorMessage(file.name, documents.message), processedFiles + [file.name]);
        }
        allDocuments := allDocuments + documents.value;
        processedFiles := processedFiles + [file.name];
        i := i + 1;
      }
      assert files[..i] == files;
      b := Collecting(allDocuments, processedFiles);
    }

    /** `add_documents`: the batch is all or nothing. The store changes only
        when every file was processed and some chunk came out; the vector
        store is then saved. */
    method AddDocuments(uploads: Option<seq<Upload>>, fs: FileSystem, readers: Readers, embedding: Outcome)
      returns (msg: string)
      modifies store, fs
      ensures !Submitted(uploads) ==>
        msg == NoFilesMessage && store.index == old(store.index) && store.documents == old(store.documents)
        && fs.files == old(fs.files)
      ensures Submitted(uploads) && Batch(uploads.value, Ingestor(readers)).Aborted? ==>
        var b := Batch(uploads.value, Ingestor(readers));
        msg == b.message && store.index == old(store.index) && store.documents == old(store.documents)
        && fs.files == old(fs.files) - TempPaths(b.names)
      ensures Submitted(uploads) && Batch(uploads.value, Ingestor(readers)) == Collecting([], Names(uploads.value)) ==>
        msg == NoContentMessage && store.index == old(store.index) && store.documents == old(store.documents)
        && fs.files == old(fs.files) - TempPaths(Names(uploads.value))
      ensures Submitted(uploads) && Batch(uploads.value, Ingestor(readers)).Collecting? && Batch(uploads.value, Ingestor(readers)).docs != [] ==>
        var b := Batch(uploads.value, Ingestor(readers));
        && store.documents == old(store.documents) + b.docs
        && (embedding.Pass? ==>
              && store.index == Some(AddToIndex(old(store.index), b.docs))
              && fs.files == Saved(old(fs.files) - TempPaths(b.names), VectorStorePath, store.index.value, store.documents)
              && msg == SuccessMessage(b.names, b.docs))
        && (embedding.Fail? ==>
              && store.index == old(store.index)
              && fs.files == old(fs.files) - TempPaths(b.names)
              && msg == CreateErrorPrefix + embedding.message)
    {
      if !Submitted(uploads) {
        return NoFilesMessage;
      }
      var b := ProcessBatch(uploads.value, fs, readers);
      if b.Aborted? {
        return b.message;
      }
      BatchCollectsAll(uploads.value, Ingestor(readers));
      if b.docs != [] {
        var created := store.CreateVectorStore(b.docs, embedding);
        if created.Fail? {
          return CreateErrorPrefix + created.message;
        }
        store.SaveVectorStore(fs, VectorStorePath);
        msg := SuccessMessage(b.names, b.docs);
      } else {
        msg := NoContentMessage;
      }
    }

    /** `load_existing_documents`. */
    method LoadExistingDocuments(fs: FileSystem) returns (ok: bool)
      modifies store
      ensures var ixPath, docsPath := IndexFile(VectorStorePath), DocumentsFile(VectorStorePath);
        if ixPath !in fs.files || !fs.files[ixPath].SavedIndex? then
          !ok && store.index == old(store.index) && store.documents == old(store.documents)
        else
          && store.index == Some(fs.files[ixPath].index)
          && (if docsPath !in fs.files then ok && store.documents == old(store.documents)
              else if fs.files[docsPath].SavedDocuments? then ok && store.documents == fs.files[docsPath].docs
              else !ok && store.documents == old(store.documents))
    {
      ok := store.LoadVectorStore(fs, VectorStorePath);
    }

    /** `retrieve_and_generate`: the loop over the results appends a tag and
        the text to the context and an entry to the sources. */
    method RetrieveAndGenerate(query: string, search: (Index, string, nat) -> Result<seq<Hit>>,
                               complete: (string, string) -> Result<string>) returns (r: RagResult)
      ensures r == Answer(store.index, query, search, complete)
    {
      if store.index.None? {
        return RagResult(NotUploadedAnswer, [], false);
      }
      var relevantDocs := store.SimilaritySearchWithScore(query, TopK, search);
      if relevantDocs == [] {
        return RagResult(NotFoundAnswer, [], true);
      }
      var context := "";
      var sources: seq<SourceEntry> := [];
      var i := 0;
      while i < |relevantDocs|
        invariant 0 <= i <= |relevantDocs|
        invariant context == ContextOf(relevantDocs[..i])
        invariant sources == SourcesOf(relevantDocs[..i])
      {
        var hit := relevantDocs[i];
        HitStep(relevantDocs, i);
        context := context + Tag(hit);
        context := context + hit.doc.pageContent;
        sources := sources + [SourceOf(hit)];
        i := i + 1;
      }
      assert relevantDocs[..i] == relevantDocs;
      var response := complete(SystemPrompt, UserPrompt(context, query));
      if response.Ok? {
        r := RagResult(response.value, sources, true);
      } else {
        r := RagResult(GenerationErrorPrefix + response.message, [], true);
      }
    }

    /** `get_document_count`. */
    function GetDocumentCount(): (n: nat)
      reads store
      ensures n == |store.documents|
    {
      store.GetDocumentCount()
    }

    /** `clear_documents`: empties the store; the saved files stay on disk. */
    method ClearDocuments() returns (msg: string)
      modifies store
      ensures store.index == None && store.documents == [] && msg == ClearedMessage
    {
      store.ClearVectorStore();
      msg := ClearedMessage;
    }
  }
}
