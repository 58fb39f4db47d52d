/** The batch ingestion script of the chatbot back end: the API-key check at
    import, the data-directory guard, the in-place rewrite of each chunk's
    `source` metadata to its base name, batching by 100, one vector store per
    batch, and the in-order merge into the first store. The PDF loader, the
    text splitter and the embedding model are oracles. */
module Ingestion {
  import opened Wrappers
  import opened Text
  import Slicing

  const BatchSize: nat := 100
  const KeyNotSet := "GOOGLE_API_KEY is not set. Please check your .env file."
  const NoneAssigned := "str expected, not NoneType"
  const DataMissing := "The './Data' directory is empty or does not exist."

  /** A split document chunk: its page text and its metadata dictionary. */
  datatype Chunk = Chunk(pageContent: string, metadata: map<string, string>)

  /** `os.path.basename` on POSIX paths. */
  function Basename(path: string): (r: string)
    ensures '/' !in r && |r| <= |path|
    ensures '/' !in path ==> r == path
  {
    PlainNameIsBasename(path);
    AfterLast(path, '/')
  }

  /** A path without a slash is its own base name. */
  lemma PlainNameIsBasename(path: string)
    ensures '/' !in path ==> AfterLast(path, '/') == path
  {
    if '/' !in path {
      AfterLastNoSep(path, '/');
    }
  }

  /** One turn of the metadata loop: `source` becomes the base name of the
      old source, or of "unknown" when there was none. */
  function WithBasenameSource(d: Chunk): (r: Chunk)
    ensures r.pageContent == d.pageContent
    ensures r.metadata.Keys == d.metadata.Keys + {"source"}
    ensures forall k :: k in d.metadata && k != "source" ==> r.metadata[k] == d.metadata[k]
    ensures '/' !in r.metadata["source"]
    ensures r.metadata["source"] ==
      Basename(if "source" in d.metadata then d.metadata["source"] else "unknown")
  {
    var old_source := if "source" in d.metadata then d.metadata["source"] else "unknown";
    d.(metadata := d.metadata["source" := Basename(old_source)])
  }

  /** Rewriting twice is rewriting once: a base name is its own base name. */
  lemma RewriteIdempotent(d: Chunk)
    ensures WithBasenameSource(WithBasenameSource(d)) == WithBasenameSource(d)
  {
    var once := WithBasenameSource(d);
    AfterLastNoSep(once.metadata["source"], '/');
  }

  /** The rewritten source of a chunk whose source is `dir + "/" + name` (with
      no slash in `name`) is `name`; a chunk without a source gets "unknown". */
  lemma RewrittenSource(d: Chunk, dir: string, name: string)
    requires '/' !in name
    ensures "source" in d.metadata && d.metadata["source"] == dir + "/" + name ==>
      WithBasenameSource(d).metadata["source"] == name
    ensures "source" !in d.metadata ==> WithBasenameSource(d).metadata["source"] == "unknown"
  {
    if "source" in d.metadata && d.metadata["source"] == dir + "/" + name {
      AfterLastOfJoin(dir, '/', name);
    }
    AfterLastNoSep("unknown", '/');
  }

  /** The metadata loop, rewriting each chunk in place. */
  method RewriteSources(docs: array<Chunk>)
    modifies docs
    ensures forall k :: 0 <= k < docs.Length ==> docs[k] == WithBasenameSource(old(docs[k]))
  {
    ghost var original := docs[..];
    for i := 0 to docs.Length
      invariant forall k :: 0 <= k < i ==> docs[k] == WithBasenameSource(original[k])
      invariant forall k :: i <= k < docs.Length ==> docs[k] == original[k]
    {
      ghost var before := docs[..];
      docs[i] := WithBasenameSource(docs[i]);
      assert docs[..] == before[i := WithBasenameSource(original[i])];
    }
  }

  /** The batches `[final_documents[i:i + 100] for i in range(0, len, 100)]`. */
  function Batches(docs: seq<Chunk>): (r: seq<seq<Chunk>>)
    ensures Slicing.Flatten(r) == docs
  {
    Slicing.FlattenSlices(docs, BatchSize);
    Slicing.Slices(docs, BatchSize)
  }

  /** The batches partition the chunks in order: joined they give the chunks
      back, each holds 1 to 100 chunks, all but the last exactly 100, and
      there are ceil(n / 100) of them. */
  lemma BatchesShape(docs: seq<Chunk>)
    ensures var b := Batches(docs);
      && Slicing.Flatten(b) == docs
      && (forall k :: 0 <= k < |b| ==> 0 < |b[k]| <= BatchSize)
      && (forall k :: 0 <= k < |b| - 1 ==> |b[k]| == BatchSize)
      && |b| == (|docs| + BatchSize - 1) / BatchSize
  {
    Slicing.FlattenSlices(docs, BatchSize);
    Slicing.SlicesShape(docs, BatchSize);
  }

  /** The (vector, chunk) entries a store built from `batch` holds, in order. */
  function Embedded<V>(batch: seq<Chunk>, embed: string -> V): (r: seq<(V, Chunk)>)
    ensures |r| == |batch|
  {
    seq(|batch|, i requires 0 <= i < |batch| => (embed(batch[i].pageContent), batch[i]))
  }

  lemma EmbeddedAppend<V>(a: seq<Chunk>, b: seq<Chunk>, embed: string -> V)
    ensures Embedded(a + b, embed) == Embedded(a, embed) + Embedded(b, embed)
  {
  }

  /** Merging the per-batch stores in batch order gives the store of all the
      chunks: same entries, same order, one per chunk. */
  lemma {:induction false} MergedBatches<V>(batches: seq<seq<Chunk>>, embed: string -> V)
    ensures Slicing.Flatten(seq(|batches|, j requires 0 <= j < |batches| => Embedded(batches[j], embed)))
         == Embedded(Slicing.Flatten(batches), embed)
  {
    var stores := seq(|batches|, j requires 0 <= j < |batches| => Embedded(batches[j], embed));
    if batches != [] {
      var rest := seq(|batches| - 1, j requires 0 <= j < |batches| - 1 => Embedded(batches[1..][j], embed));
      assert stores[1..] == rest;
      MergedBatches(batches[1..], embed);
      EmbeddedAppend(batches[0], Slicing.Flatten(batches[1..]), embed);
    }
  }

  /** A FAISS vector store: its (vector, chunk) entries in insertion order. */
  class VectorStore<V> {
    var entries: seq<(V, Chunk)>

    /** `FAISS.from_documents(batch, embeddings)`. */
    constructor FromDocuments(batch: seq<Chunk>, embed: string -> V)
      ensures entries == Embedded(batch, embed)
    {
      entries := Embedded(batch, embed);
    }

    /** `merge_from`: append the other store's entries after this one's. */
    method MergeFrom(other: VectorStore<V>)
      requires other != this
      modifies this
      ensures entries == old(entries) + other.entries
    {
      entries := entries + other.entries;
    }
  }

  /** The loop appending `FAISS.from_documents(batch, embeddings)` for each
      batch: one new store per batch, in batch order. */
  method BuildStores<V>(batches: seq<seq<Chunk>>, embed: string -> V) returns (stores: seq<VectorStore<V>>)
    ensures |stores| == |batches|
    ensures forall j :: 0 <= j < |stores| ==> fresh(stores[j]) && stores[j].entries == Embedded(batches[j], embed)
    ensures forall j, k :: 0 <= j < k < |stores| ==> stores[j] != stores[k]
  {
    stores := [];
    for i := 0 to |batches|
      invariant |stores| == i
      invariant forall j :: 0 <= j < i ==> fresh(stores[j]) && stores[j].entries == Embedded(batches[j], embed)
      invariant forall j, k :: 0 <= j < k < i ==> stores[j] != stores[k]
    {
      var store := new VectorStore.FromDocuments(batches[i], embed);
      stores := stores + [store];
    }
  }

  /** `vectors = vector_stores[0]` followed by `vectors.merge_from(store)` for
      every later store: the first store ends up holding every batch's
      entries, in batch order. */
  method MergeStores<V>(stores: seq<VectorStore<V>>, ghost batches: seq<seq<Chunk>>, embed: string -> V)
    returns (vectors: VectorStore<V>)
    requires 0 < |stores| == |batches|
    requires forall j :: 0 <= j < |stores| ==> stores[j].entries == Embedded(batches[j], embed)
    requires forall j, k :: 0 <= j < k < |stores| ==> stores[j] != stores[k]
    modifies stores[0]
    ensures vectors == stores[0]
    ensures vectors.entries == Embedded(Slicing.Flatten(batches), embed)
  {
    vectors := stores[0];
    for i := 1 to |stores|
      invariant vectors == stores[0]
      invariant vectors.entries == Slicing.Flatten(seq(i, j requires 0 <= j < i => Embedded(batches[j], embed)))
    {
      ghost var done := seq(i, j requires 0 <= j < i => Embedded(batches[j], embed));
      ghost var next := seq(i + 1, j requires 0 <= j < i + 1 => Embedded(batches[j], embed));
      assert next == done + [Embedded(batches[i], embed)];
      Slicing.FlattenAppend(done, [Embedded(batches[i], embed)]);
      assert Slicing.Flatten([Embedded(batches[i], embed)]) == Embedded(batches[i], embed);
      vectors.MergeFrom(stores[i]);
    }
    ghost var all := seq(|batches|, j requires 0 <= j < |batches| => Embedded(batches[j], embed));
    assert seq(|stores|, j requires 0 <= j < |stores| => Embedded(batches[j], embed)) == all;
    MergedBatches(batches, embed);
  }

  /** `embed_and_save_documents`. `dirExists` and `listing` describe `./Data`;
      `docs` holds the chunks the loader and splitter produce from it. The
      result is the merged store that `save_local` writes. */
  method EmbedAndSaveDocuments<V>(dirExists: bool, listing: seq<string>, docs: array<Chunk>,
                                  embed: string -> V)
    returns (r: Result<seq<(V, Chunk)>, Exception>)
    modifies docs
    ensures !dirExists || listing == [] ==>
      r == Err(Exception(FileNotFoundError, DataMissing)) && docs[..] == old(docs[..])
    ensures dirExists && listing != [] ==>
      && (forall k :: 0 <= k < docs.Length ==> docs[k] == WithBasenameSource(old(docs[k])))
      && (docs.Length == 0 ==> r == Err(Slicing.IndexOutOfRange))
      && (docs.Length > 0 ==> r == Ok(Embedded(docs[..], embed)))
  {
    if !dirExists || listing == [] {
      return Err(Exception(FileNotFoundError, DataMissing));
    }
    RewriteSources(docs);
    var finalDocs := docs[..];
    var batches := Batches(finalDocs);
    BatchesShape(finalDocs);

    var stores := BuildStores(batches, embed);
    if |stores| == 0 {
      assert finalDocs == Slicing.Flatten(batches) == [];
      return Err(Slicing.IndexOutOfRange);
    }
    var vectors := MergeStores(stores, batches, embed);
    r := Ok(vectors.entries);
  }

  /** Running the script: line 16 assigns the key into `os.environ`, which
      raises TypeError when it is absent; an empty key fails the explicit
      check. Either way nothing is loaded or embedded. */
  method RunIngestion<V>(apiKey: Option<string>, dirExists: bool, listing: seq<string>,
                         docs: array<Chunk>, embed: string -> V)
    returns (r: Result<seq<(V, Chunk)>, Exception>)
    modifies docs
    ensures apiKey == None ==> r == Err(Exception(TypeError, NoneAssigned)) && docs[..] == old(docs[..])
    ensures apiKey == Some("") ==> r == Err(Exception(ValueError, KeyNotSet)) && docs[..] == old(docs[..])
    ensures apiKey.Some? && apiKey.value != "" && (!dirExists || listing == []) ==>
      r == Err(Exception(FileNotFoundError, DataMissing)) && docs[..] == old(docs[..])
    ensures apiKey.Some? && apiKey.value != "" && dirExists && listing != [] ==>
      && (forall k :: 0 <= k < docs.Length ==> docs[k] == WithBasenameSource(old(docs[k])))
      && (docs.Length == 0 ==> r == Err(Slicing.IndexOutOfRange))
      && (docs.Length > 0 ==> r == Ok(Embedded(docs[..], embed)))
  {
    if apiKey.None? {
      return Err(Exception(TypeError, NoneAssigned));
    }
    if apiKey.value == "" {
      return Err(Exception(ValueError, KeyNotSet));
    }
    r := EmbedAndSaveDocuments(dirExists, listing, docs, embed);
  }
}
