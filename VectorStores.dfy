/** `VectorStore` (`modules/rag/vector_store.py`): the FAISS index and the
    parallel list of documents, with persistence. The embedding call and the
    FAISS search are collaborators whose outcomes are parameters. */
module VectorStores {
  import opened Wrappers
  import opened Documents
  import opened Disk

  /** `config.TOP_K_DOCUMENTS`. */
  const TopK: nat := 3
  /** `config.VECTOR_STORE_PATH`. */
  const VectorStorePath: string := "./data/vector_store"

  const NoDocumentsMessage: string := "文書が提供されていません"

  /** The index file `save_local` writes and `load_vector_store` looks for. */
  function IndexFile(path: string): string {
    path + "/index.faiss"
  }

  /** The pickled document list beside it. */
  function DocumentsFile(path: string): string {
    path + "/documents.pkl"
  }

  /** The files after a save of `index` and `docs` under `path`. */
  function Saved(files: map<string, Blob>, path: string, index: Index, docs: seq<Document>): (r: map<string, Blob>)
    ensures r.Keys == files.Keys + {IndexFile(path), DocumentsFile(path)}
    ensures r[IndexFile(path)] == SavedIndex(index) && r[DocumentsFile(path)] == SavedDocuments(docs)
    ensures forall p :: p in files && p != IndexFile(path) && p != DocumentsFile(path) ==> r[p] == files[p]
  {
    files[IndexFile(path) := SavedIndex(index)][DocumentsFile(path) := SavedDocuments(docs)]
  }

  /** The index after new documents are embedded: a fresh index when there
      was none, otherwise the existing one with the new documents merged in. */
  function AddToIndex(current: Option<Index>, docs: seq<Document>): (r: Index)
    ensures current.None? ==> r.entries == docs
    ensures current.Some? ==> r.entries == current.value.entries + docs
  {
    match current
    case None => FromDocuments(docs)
    case Some(ix) => MergeFrom(ix, FromDocuments(docs))
  }

  /** The guard both search methods share: no index, or a search that raises,
      gives no result; otherwise the library's results are passed through. */
  function GuardedSearch<T>(index: Option<Index>, query: string, k: nat,
                            search: (Index, string, nat) -> Result<seq<T>>): (r: seq<T>)
    ensures index.None? ==> r == []
    ensures index.Some? && search(index.value, query, k).Err? ==> r == []
    ensures index.Some? && search(index.value, query, k).Ok? ==> r == search(index.value, query, k).value
  {
    if index.None? then []
    else match search(index.value, query, k)
      case Ok(results) => results
      case Err(_) => []
  }

  class VectorStore {
    /** `self.vector_store`: no index yet, or the FAISS index. */
    var index: Option<Index>
    /** `self.documents`: every document handed to `create_vector_store`. */
    var documents: seq<Document>

    constructor ()
      ensures index == None && documents == []
    {
      index := None;
      documents := [];
    }

    /** The index holds exactly the documents the store counts. The source
        does not keep this: a failed embedding or a load without a document
        file breaks it. */
    predicate InSync()
      reads this
    {
      match index
      case None => documents == []
      case Some(ix) => ix.entries == documents
    }

    /** `create_vector_store`, given the outcome of the embedding call. The
        documents are added before embedding, so they stay counted when the
        embedding fails. */
    method CreateVectorStore(docs: seq<Document>, embedding: Outcome) returns (r: Outcome)
      modifies this
      ensures docs == [] ==> r == Fail(NoDocumentsMessage) && index == old(index) && documents == old(documents)
      ensures docs != [] ==> documents == old(documents) + docs
      ensures docs != [] && embedding.Pass? ==> r == Pass && index == Some(AddToIndex(old(index), docs))
      ensures docs != [] && embedding.Fail? ==> r == embedding && index == old(index)
      ensures old(InSync()) && embedding.Pass? ==> InSync()
    {
      if docs == [] {
        return Fail(NoDocumentsMessage);
      }
      documents := documents + docs;
      if embedding.Fail? {
        return embedding;
      }
      if index.None? {
        index := Some(FromDocuments(docs));
      } else {
        index := Some(MergeFrom(index.value, FromDocuments(docs)));
      }
      r := Pass;
    }

    /** `similarity_search`. */
    function SimilaritySearch(query: string, k: nat, search: (Index, string, nat) -> Result<seq<Document>>): (r: seq<Document>)
      reads this
      ensures index.None? ==> r == []
      ensures r == GuardedSearch(index, query, k, search)
    {
      GuardedSearch(index, query, k, search)
    }

    /** `similarity_search_with_score`. */
    function SimilaritySearchWithScore(query: string, k: nat, search: (Index, string, nat) -> Result<seq<Hit>>): (r: seq<Hit>)
      reads this
      ensures index.None? ==> r == []
      ensures r == GuardedSearch(index, query, k, search)
    {
      GuardedSearch(index, query, k, search)
    }

    /** `save_vector_store`: writes the index and the pickled documents, or
        nothing when there is no index. */
    method SaveVectorStore(fs: FileSystem, path: string)
      modifies fs
      ensures index.None? ==> fs.files == old(fs.files)
      ensures index.Some? ==> fs.files == Saved(old(fs.files), path, index.value, documents)
    {
      if index.None? {
        return;
      }
      fs.files := fs.files[IndexFile(path) := SavedIndex(index.value)];
      fs.files := fs.files[DocumentsFile(path) := SavedDocuments(documents)];
    }

    /** `load_vector_store`. Without a loadable index file nothing changes and
        the answer is false. Otherwise the index is replaced; the documents
        are replaced only when the document file exists, and a document file
        that does not unpickle makes the answer false after the index was
        already replaced. */
    method LoadVectorStore(fs: FileSystem, path: string) returns (ok: bool)
      modifies this
      ensures IndexFile(path) !in fs.files || !fs.files[IndexFile(path)].SavedIndex? ==>
        !ok && index == old(index) && documents == old(documents)
      ensures IndexFile(path) in fs.files && fs.files[IndexFile(path)].SavedIndex? ==>
        index == Some(fs.files[IndexFile(path)].index)
      ensures IndexFile(path) in fs.files && fs.files[IndexFile(path)].SavedIndex? ==>
        if DocumentsFile(path) !in fs.files then ok && documents == old(documents)
        else if fs.files[DocumentsFile(path)].SavedDocuments? then ok && documents == fs.files[DocumentsFile(path)].docs
        else !ok && documents == old(documents)
    {
      if IndexFile(path) !in fs.files {
        return false;
      }
      var stored := fs.files[IndexFile(path)];
      if !stored.SavedIndex? {
        return false;
      }
      index := Some(stored.index);
      if DocumentsFile(path) in fs.files {
        var pickled := fs.files[DocumentsFile(path)];
        if !pickled.SavedDocuments? {
          return false;
        }
        documents := pickled.docs;
      }
      ok := true;
    }

    /** `get_document_count`. */
    function GetDocumentCount(): (n: nat)
      reads this
      ensures n == |documents|
    {
      |documents|
    }

    /** `clear_vector_store`: back to the empty state, whatever the state was. */
    method ClearVectorStore()
      modifies this
      ensures index == None && documents == [] && InSync()
    {
      index := None;
      documents := [];
    }
  }

  /** A first ingestion whose embedding fails leaves the store counting the
      documents while it still has no index. */
  method FailedEmbeddingDiverges(docs: seq<Document>, error: string) returns (count: nat, available: bool)
    requires docs != []
    ensures count == |docs| && !available
  {
    var store := new VectorStore();
    var r := store.CreateVectorStore(docs, Fail(error));
    count := store.GetDocumentCount();
    available := store.index.Some?;
  }

  /** Saving a store and loading it into a fresh one gives the same index, the
      same documents and so the same count and the same search results. */
  method SaveLoadRoundTrip(store: VectorStore, fs: FileSystem, path: string, query: string,
                           search: (Index, string, nat) -> Result<seq<Hit>>) returns (ok: bool, restored: VectorStore)
    requires store.index.Some?
    modifies fs
    ensures ok && restored.index == store.index && restored.documents == store.documents
    ensures restored.GetDocumentCount() == store.GetDocumentCount()
    ensures restored.SimilaritySearchWithScore(query, TopK, search) == store.SimilaritySearchWithScore(query, TopK, search)
  {
    store.SaveVectorStore(fs, path);
    restored := new VectorStore();
    ok := restored.LoadVectorStore(fs, path);
  }
}
