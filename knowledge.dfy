/** The knowledge base behind the advice agent: `retrieve`, which turns a vector-store
    query answer into `{chunk, source}` snippets, and `reindex_kb`, which drops the
    `kb_store` collection and refills it with the chunks of every markdown file, each
    under the id `<stem>-<i>-<j>`. */
module Knowledge {
  import opened Base
  import opened Text

  /** `{"chunk": ..., "source": ...}` */
  datatype Snippet = Snippet(chunk: string, source: string)

  /** The part of a query answer `retrieve` reads, for its single query text: the first
      list under `documents` and under `metadatas` (None when the store reports None
      there), each metadata entry being a dict or None. */
  datatype Answer = Answer(documents: Option<seq<string>>, metadatas: Option<seq<Option<map<string, string>>>>)

  /** What the vector store does inside `retrieve`'s `try`: opening or querying it raised
      (swallowed), the collection is empty, or the query answered. */
  datatype Backend = Unavailable | EmptyCollection | Answered(answer: Answer)

  /** `metas[i].get("source", "kb")` */
  function SourceOf(meta: map<string, string>): string {
    if "source" in meta then meta["source"] else "kb"
  }

  /** Snippet `i`: `metas[i]` past the end raises IndexError, a None entry AttributeError. */
  function SnippetAt(docs: seq<string>, metas: seq<Option<map<string, string>>>, i: nat): Result<Snippet>
    requires i < |docs|
  {
    if i >= |metas| then Err(IndexError)
    else if metas[i].None? then Err(AttributeError)
    else Ok(Snippet(docs[i], SourceOf(metas[i].value)))
  }

  /** The snippets for the first `n` documents, or the first exception the loop raises. */
  function SnippetsUpTo(docs: seq<string>, metas: seq<Option<map<string, string>>>, n: nat): (r: Result<seq<Snippet>>)
    requires n <= |docs|
    ensures r.Ok? <==> n <= |metas| && forall i | 0 <= i < n :: metas[i].Some?
    ensures r.Ok? ==> |r.value| == n && forall i | 0 <= i < n ::
      r.value[i] == Snippet(docs[i], SourceOf(metas[i].value))
    ensures r.Err? ==> (r.error == IndexError <==> n > |metas| && forall i | 0 <= i < |metas| :: metas[i].Some?)
  {
    if n == 0 then Ok([])
    else match SnippetsUpTo(docs, metas, n - 1)
      case Err(e) => Err(e)
      case Ok(out) =>
        match SnippetAt(docs, metas, n - 1)
        case Err(e) => Err(e)
        case Ok(s) => Ok(out + [s])
  }

  /** What `retrieve(topic, top_k)` returns, given the store's behaviour for the query. */
  function Retrieved(backend: Backend): (r: Result<seq<Snippet>>)
    ensures !backend.Answered? ==> r == Ok([])
    ensures backend.Answered? && (backend.answer.documents.None? || backend.answer.metadatas.None?) ==> r == Err(TypeError)
  {
    match backend
    case Unavailable => Ok([])
    case EmptyCollection => Ok([])
    case Answered(Answer(docs, metas)) =>
      if docs.None? || metas.None? then Err(TypeError)
      else SnippetsUpTo(docs.value, metas.value, |docs.value|)
  }

  /** `retrieve(topic, top_k)`: the store is consulted once, and one snippet is built per
      returned document, in order. */
  method Retrieve(topic: string, topK: nat, store: (string, nat) -> Backend) returns (r: Result<seq<Snippet>>)
    ensures r == Retrieved(store(topic, topK))
  {
    var backend := store(topic, topK);
    if !backend.Answered? {
      return Ok([]);
    }
    if backend.answer.documents.None? || backend.answer.metadatas.None? {
      return Err(TypeError);
    }
    var docs := backend.answer.documents.value;
    var metas := backend.answer.metadatas.value;
    var out: seq<Snippet> := [];
    for i := 0 to |docs|
      invariant SnippetsUpTo(docs, metas, i) == Ok(out)
    {
      if i >= |metas| {
        SnippetsErrSticky(docs, metas, i + 1);
        return Err(IndexError);
      }
      if metas[i].None? {
        SnippetsErrSticky(docs, metas, i + 1);
        return Err(AttributeError);
      }
      out := out + [Snippet(docs[i], SourceOf(metas[i].value))];
    }
    r := Ok(out);
  }

  /** An exception raised at document `n - 1` is the one the whole loop raises. */
  lemma {:induction false} SnippetsErrSticky(docs: seq<string>, metas: seq<Option<map<string, string>>>, n: nat)
    requires n <= |docs| && SnippetsUpTo(docs, metas, n).Err?
    ensures SnippetsUpTo(docs, metas, |docs|) == SnippetsUpTo(docs, metas, n)
    decreases |docs| - n
  {
    if n < |docs| {
      SnippetsErrSticky(docs, metas, n + 1);
    }
  }

  // ---- Chunk ids ----

  /** `f"{p.stem}-{i}-{j}"` */
  function ChunkId(stem: string, i: nat, j: nat): string {
    stem + "-" + Dec(i) + "-" + Dec(j)
  }

  predicate NoDash(s: string) {
    forall k | 0 <= k < |s| :: s[k] != '-'
  }

  /** Splits `s` at its last `-`. */
  function SplitLast(s: string): Option<(string, string)> {
    if s == [] then None
    else if s[|s| - 1] == '-' then Some((s[..|s| - 1], ""))
    else match SplitLast(s[..|s| - 1])
      case None => None
      case Some(p) => Some((p.0, p.1 + [s[|s| - 1]]))
  }

  lemma {:induction false} SplitLastOf(x: string, d: string)
    requires NoDash(d)
    ensures SplitLast(x + "-" + d) == Some((x, d))
  {
    var s := x + "-" + d;
    if d == [] {
      assert s[..|s| - 1] == x;
    } else {
      var d' := d[..|d| - 1];
      assert s[..|s| - 1] == x + "-" + d';
      assert s[|s| - 1] == d[|d| - 1];
      SplitLastOf(x, d');
      assert d' + [d[|d| - 1]] == d;
    }
  }

  /** Reads an id back as `(stem, i, j)`. */
  function DecodeChunkId(id: string): Option<(string, nat, nat)> {
    match SplitLast(id)
    case None => None
    case Some(p) =>
      match SplitLast(p.0)
      case None => None
      case Some(q) =>
        match (ParseDec(q.1), ParseDec(p.1))
        case (Some(i), Some(j)) => Some((q.0, i, j))
        case _ => None
  }

  /** Ids decode to the stem and the two indices they were made from; so two chunks share
      an id only when they come from the same stem, file position and chunk position,
      whatever dashes the stems contain. */
  lemma ChunkIdRoundTrip(stem: string, i: nat, j: nat)
    ensures DecodeChunkId(ChunkId(stem, i, j)) == Some((stem, i, j))
  {
    var di, dj := Dec(i), Dec(j);
    assert NoDash(di) && NoDash(dj);
    assert ChunkId(stem, i, j) == (stem + "-" + di) + "-" + dj;
    SplitLastOf(stem + "-" + di, dj);
    SplitLastOf(stem, di);
    ParseDecOfDec(i);
    ParseDecOfDec(j);
  }

  // ---- Reindexing ----

  /** A markdown file under the knowledge-base directory: its file name (`p.name`), its
      stem (`p.stem`) and its text. */
  datatype KbFile = KbFile(name: string, stem: string, text: string)

  /** One record added to the collection: id, document and `{"source": name}`. */
  datatype Chunk = Chunk(id: string, doc: string, source: string)

  /** The records for file number `i`, given its chunks. */
  function FileChunks(f: KbFile, i: nat, chunks: seq<string>): (r: seq<Chunk>)
    ensures |r| == |chunks|
    ensures forall j | 0 <= j < |chunks| :: r[j] == Chunk(ChunkId(f.stem, i, j), chunks[j], f.name)
  {
    seq(|chunks|, j requires 0 <= j < |chunks| => Chunk(ChunkId(f.stem, i, j), chunks[j], f.name))
  }

  /** The records the loops collect for the first `n` files, with `chunker` standing for
      `_chunk_markdown(text, chunk_size=800, overlap=100)`. */
  function ChunksUpTo(files: seq<KbFile>, chunker: string -> seq<string>, n: nat): seq<Chunk>
    requires n <= |files|
  {
    if n == 0 then []
    else ChunksUpTo(files, chunker, n - 1) + FileChunks(files[n - 1], n - 1, chunker(files[n - 1].text))
  }

  /** Every id in `cs` decodes, to a file position below `n`. */
  predicate PositionsBelow(cs: seq<Chunk>, n: nat) {
    forall p | 0 <= p < |cs| :: DecodeChunkId(cs[p].id).Some? && DecodeChunkId(cs[p].id).value.1 < n
  }

  /** No two records of `cs` share an id. */
  predicate DistinctIds(cs: seq<Chunk>) {
    forall p, q | 0 <= p < q < |cs| :: cs[p].id != cs[q].id
  }

  /** Appending the records of file `m`, whose ids decode to `m` and their own chunk
      positions, to records from earlier files keeps the ids distinct. */
  lemma AppendFileChunks(prev: seq<Chunk>, cur: seq<Chunk>, stem: string, m: nat)
    requires PositionsBelow(prev, m) && DistinctIds(prev)
    requires forall j | 0 <= j < |cur| :: DecodeChunkId(cur[j].id) == Some((stem, m, j))
    ensures PositionsBelow(prev + cur, m + 1) && DistinctIds(prev + cur)
  {
    var cs := prev + cur;
    forall p | 0 <= p < |cs|
      ensures DecodeChunkId(cs[p].id).Some? && DecodeChunkId(cs[p].id).value.1 < m + 1
    {
      if p >= |prev| {
        assert cs[p] == cur[p - |prev|];
      } else {
        assert cs[p] == prev[p];
      }
    }
    forall p, q | 0 <= p < q < |cs|
      ensures cs[p].id != cs[q].id
    {
      if q < |prev| {
        assert cs[p] == prev[p] && cs[q] == prev[q];
      } else if p < |prev| {
        assert cs[p] == prev[p] && cs[q] == cur[q - |prev|];
        assert DecodeChunkId(cs[p].id).value.1 < m;
      } else {
        assert cs[p] == cur[p - |prev|] && cs[q] == cur[q - |prev|];
        assert DecodeChunkId(cur[p - |prev|].id) == Some((stem, m, p - |prev|));
      }
    }
  }

  /** Every record of the first `n` files carries an id that decodes to its own file
      position (below `n`) and chunk position, and no two records share an id. */
  lemma {:induction false} ChunkIdsUnique(files: seq<KbFile>, chunker: string -> seq<string>, n: nat)
    requires n <= |files|
    ensures PositionsBelow(ChunksUpTo(files, chunker, n), n)
    ensures DistinctIds(ChunksUpTo(files, chunker, n))
  {
    if n > 0 {
      ChunkIdsUnique(files, chunker, n - 1);
      var f := files[n - 1];
      var cur := FileChunks(f, n - 1, chunker(f.text));
      forall j | 0 <= j < |cur|
        ensures DecodeChunkId(cur[j].id) == Some((f.stem, n - 1, j))
      {
        ChunkIdRoundTrip(f.stem, n - 1, j);
      }
      AppendFileChunks(ChunksUpTo(files, chunker, n - 1), cur, f.stem, n - 1);
    }
  }

  /** How many records the first `n` files produce. */
  function ChunkCount(files: seq<KbFile>, chunker: string -> seq<string>, n: nat): nat
    requires n <= |files|
  {
    if n == 0 then 0 else ChunkCount(files, chunker, n - 1) + |chunker(files[n - 1].text)|
  }

  lemma {:induction false} ChunkCountIsLength(files: seq<KbFile>, chunker: string -> seq<string>, n: nat)
    requires n <= |files|
    ensures |ChunksUpTo(files, chunker, n)| == ChunkCount(files, chunker, n)
  {
    if n > 0 {
      ChunkCountIsLength(files, chunker, n - 1);
    }
  }

  /** The names of the indexed files, `[p.name for p in files]`. */
  function Names(files: seq<KbFile>): (r: seq<string>)
    ensures |r| == |files| && forall i | 0 <= i < |files| :: r[i] == files[i].name
  {
    seq(|files|, i requires 0 <= i < |files| => files[i].name)
  }

  /** What `reindex_kb` returns. */
  datatype ReindexResult =
    | NoFiles(detail: string)                        // {"ok": False, "indexed": 0, "detail": ...}
    | Indexed(indexed: nat, files: seq<string>)      // {"ok": True, "indexed": ..., "files": ...}
  {
    predicate Ok() { Indexed? }
    function Count(): nat { if NoFiles? then 0 else indexed }
  }

  const NoFilesDetail := "No *.md files found in ai/kb"

  /** The `kb_store` collection, as the records it holds in insertion order. */
  class KbStore {
    var records: seq<Chunk>

    constructor ()
      ensures records == []
    {
      records := [];
    }

    /** `delete_collection` followed by `get_or_create_collection`: an empty collection. */
    method Reset()
      modifies this
      ensures records == []
    {
      records := [];
    }

    /** `col.add(ids=..., documents=..., metadatas=...)` */
    method Add(batch: seq<Chunk>)
      modifies this
      ensures records == old(records) + batch
    {
      records := records + batch;
    }
  }

  /** The two nested loops that collect ids, documents and metadata. */
  method CollectChunks(files: seq<KbFile>, chunker: string -> seq<string>) returns (batch: seq<Chunk>)
    ensures batch == ChunksUpTo(files, chunker, |files|)
  {
    batch := [];
    for i := 0 to |files|
      invariant batch == ChunksUpTo(files, chunker, i)
    {
      var p := files[i];
      var chunks := chunker(p.text);
      ghost var before := batch;
      for j := 0 to |chunks|
        invariant batch == before + FileChunks(p, i, chunks)[..j]
      {
        assert FileChunks(p, i, chunks)[..j + 1] == FileChunks(p, i, chunks)[..j] + [Chunk(ChunkId(p.stem, i, j), chunks[j], p.name)];
        batch := batch + [Chunk(ChunkId(p.stem, i, j), chunks[j], p.name)];
      }
      assert FileChunks(p, i, chunks)[..|chunks|] == FileChunks(p, i, chunks);
    }
  }

  /** `reindex_kb()` over the sorted listing `files`. The collection is always emptied;
      with no files it stays empty and the result is `ok: False, indexed: 0`; otherwise it
      holds exactly the collected records, with distinct ids, and the result counts them
      and names the files in listing order. */
  method Reindex(store: KbStore, files: seq<KbFile>, chunker: string -> seq<string>) returns (r: ReindexResult)
    modifies store
    ensures files == [] ==> r == NoFiles(NoFilesDetail) && store.records == []
    ensures files != [] ==>
      (store.records == ChunksUpTo(files, chunker, |files|) &&
       r == Indexed(ChunkCount(files, chunker, |files|), Names(files)))
    ensures r.Count() == |store.records|
    ensures forall p, q | 0 <= p < q < |store.records| :: store.records[p].id != store.records[q].id
  {
    store.Reset();
    if files == [] {
      return NoFiles(NoFilesDetail);
    }
    var batch := CollectChunks(files, chunker);
    store.Add(batch);
    ChunkIdsUnique(files, chunker, |files|);
    ChunkCountIsLength(files, chunker, |files|);
    r := Indexed(|batch|, Names(files));
  }
}
