/** The files the core reads and writes, as a map from path to contents.
    Serialised forms (pickle, FAISS `save_local`) are kept as the values they
    encode. */
module Disk {
  import opened Wrappers
  import opened Documents

  type Bytes = seq<bv8>

  datatype Blob =
    | Bytes(data: Bytes)                   // raw bytes, such as an uploaded file
    | SavedIndex(index: Index)             // what `save_local` writes for an index
    | SavedDocuments(docs: seq<Document>)  // a pickled list of documents

  class FileSystem {
    var files: map<string, Blob>

    constructor (initial: map<string, Blob>)
      ensures files == initial
    {
      files := initial;
    }
  }

  /** The bytes stored at `path`; reading a missing file, or one that does
      not hold raw bytes, fails. */
  function ReadBytes(files: map<string, Blob>, path: string): (r: Result<Bytes>)
    ensures r.Ok? <==> path in files && files[path].Bytes?
    ensures r.Ok? ==> files[path] == Bytes(r.value)
  {
    if path in files && files[path].Bytes? then Ok(files[path].data) else Err("cannot read " + path)
  }
}
