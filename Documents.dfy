/** LangChain `Document` records as the core handles them, and the FAISS index
    they end up in. */
module Documents {
  import opened Text

  /** A metadata value: the core stores strings and integers. */
  datatype MetaValue = Str(text: string) | Int(number: int)

  /** `langchain.docstore.document.Document`. */
  datatype Document = Document(pageContent: string, metadata: map<string, MetaValue>)

  /** The record every reader builds: source file name, page and file type. */
  function Record(content: string, source: string, page: int, fileType: string): Document {
    Document(content, map["source" := Str(source), "page" := Int(page), "file_type" := Str(fileType)])
  }

  /** `metadata.get(key, default)`. */
  function MetaGet(metadata: map<string, MetaValue>, key: string, default: MetaValue): (r: MetaValue)
    ensures key in metadata ==> r == metadata[key]
    ensures key !in metadata ==> r == default
  {
    if key in metadata then metadata[key] else default
  }

  /** How an f-string renders a metadata value. */
  function Render(v: MetaValue): string {
    match v
    case Str(s) => s
    case Int(n) => IntToString(n)
  }

  /** The FAISS index, kept opaque: it is known only by the documents its
      docstore holds, in insertion order. */
  datatype Index = Index(entries: seq<Document>)

  /** `FAISS.from_documents`, once the embedding call has succeeded. */
  function FromDocuments(docs: seq<Document>): (r: Index)
    ensures r.entries == docs
  {
    Index(docs)
  }

  /** `merge_from`: the other index's documents are added after the existing ones. */
  function MergeFrom(into: Index, other: Index): (r: Index)
    ensures r.entries == into.entries + other.entries
  {
    Index(into.entries + other.entries)
  }

  /** A search hit of `similarity_search_with_score`: the score is the
      library's distance and is only passed along. */
  datatype Hit = Hit(doc: Document, score: real)
}
