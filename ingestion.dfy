/**
 * rag_app_apis/utils.py, process_chunk and process_document: extract the text
 * of a document, split it into chunks, store every chunk with its embedding
 * batch by batch, store every chunk again one at a time, and only then mark the
 * document processed.
 */
module Ingestion {
  import opened Common
  import opened PyStr
  import opened Models
  import opened Extraction

  const BatchSize: nat := 10

  /** What Python says when `batch_embeddings[j]` or `[...][0]` is past the end. */
  const IndexErrorMessage: string := "list index out of range"

  /** `embedding_model.embed_documents(texts)`: vectors in input order, or the exception. */
  type Embedder = seq<string> -> Result<seq<Vector>>

  /**
   * What process_document sees of the world around it. `localPath` stands for
   * `document.local_path`, `fileExists` for `os.path.exists`, `file` for what the
   * readers get from that file, and `split` for the text splitter's `split_text`
   * (chunk_size 10000, chunk_overlap 2000; its chunk boundaries are not modelled).
   */
  datatype Environment = Environment(
    localPath: Option<string>,
    fileExists: string -> bool,
    file: FileSource,
    split: string -> seq<string>,
    embed: Embedder)

  function Contents(rows: seq<Chunk>): (r: seq<string>)
    ensures |r| == |rows| && forall j :: 0 <= j < |rows| ==> r[j] == rows[j].content
  {
    seq(|rows|, j requires 0 <= j < |rows| => rows[j].content)
  }

  lemma ContentsAppend(a: seq<Chunk>, b: seq<Chunk>)
    ensures Contents(a + b) == Contents(a) + Contents(b)
  {
  }

  // ---------------------------------------------------------------------------
  // The batch partition: chunks[i:i + 10] for i in range(0, len(chunks), 10)
  // ---------------------------------------------------------------------------

  function Batches<T>(xs: seq<T>): (r: seq<seq<T>>)
    decreases |xs|
  {
    if xs == [] then []
    else if |xs| <= BatchSize then [xs]
    else [xs[..BatchSize]] + Batches(xs[BatchSize..])
  }

  function Flatten<T>(xss: seq<seq<T>>): seq<T>
  {
    if xss == [] then [] else xss[0] + Flatten(xss[1..])
  }

  /**
   * There are ceil(n / 10) batches, none of them empty or longer than 10, and
   * put back together they are the chunk list.
   */
  lemma {:induction false} BatchesPartition<T>(xs: seq<T>)
    ensures |Batches(xs)| == (|xs| + BatchSize - 1) / BatchSize
    ensures forall k :: 0 <= k < |Batches(xs)| ==> 0 < |Batches(xs)[k]| <= BatchSize
    ensures Flatten(Batches(xs)) == xs
    decreases |xs|
  {
    if |xs| > BatchSize {
      BatchesPartition(xs[BatchSize..]);
      assert xs == xs[..BatchSize] + xs[BatchSize..];
      assert Batches(xs)[1..] == Batches(xs[BatchSize..]);
    } else if xs != [] {
      assert Flatten(Batches(xs)) == xs + Flatten([]);
    }
  }

  /** Batch k is exactly the slice chunks[10k : 10k + 10], cut at the end of the list. */
  lemma {:induction false} BatchAt<T>(xs: seq<T>, k: nat)
    requires k < |Batches(xs)|
    ensures k * BatchSize < |xs|
    ensures Batches(xs)[k] ==
      xs[k * BatchSize..if (k + 1) * BatchSize < |xs| then (k + 1) * BatchSize else |xs|]
    decreases |xs|
  {
    if k > 0 {
      assert |xs| > BatchSize;
      BatchAt(xs[BatchSize..], k - 1);
      assert Batches(xs)[k] == Batches(xs[BatchSize..])[k - 1];
    }
  }

  // ---------------------------------------------------------------------------
  // The batch pass
  // ---------------------------------------------------------------------------

  /** The rows `bulk_create` gets for one batch: chunk j with embedding j. */
  function BatchRows(document: nat, batch: seq<string>, embed: Embedder): (r: Result<seq<Chunk>>)
    ensures r.Ok? <==> embed(batch).Ok? && |embed(batch).value| >= |batch|
    ensures r.Ok? ==> Contents(r.value) == batch
    ensures r.Ok? ==> forall j :: 0 <= j < |batch| ==>
      r.value[j].document == document && r.value[j].embedding == embed(batch).value[j]
  {
    match embed(batch)
    case Raised(e) => Raised(e)
    case Ok(vectors) =>
      if |vectors| < |batch| then Raised(IndexErrorMessage)
      else
        var rows := seq(|batch|, j requires 0 <= j < |batch| => Chunk(document, batch[j], vectors[j]));
        assert Contents(rows) == batch;
        Ok(rows)
  }

  /** The rows the batch loop stores, and the exception that ended it early, if any. */
  datatype BatchPassResult = BatchPassResult(rows: seq<Chunk>, error: Option<string>)

  function BatchPass(document: nat, batches: seq<seq<string>>, embed: Embedder): BatchPassResult
  {
    if batches == [] then BatchPassResult([], None)
    else match BatchRows(document, batches[0], embed)
      case Raised(e) => BatchPassResult([], Some(e))
      case Ok(rows) =>
        var rest := BatchPass(document, batches[1..], embed);
        BatchPassResult(rows + rest.rows, rest.error)
  }

  /**
   * The batch loop keeps what it stored before an exception (there is no
   * rollback): the stored rows hold the first whole batches, in order, and
   * all of them when nothing raised.
   */
  lemma {:induction false} BatchPassStoresPrefix(document: nat, chunks: seq<string>, embed: Embedder)
    ensures |BatchPass(document, Batches(chunks), embed).rows| <= |chunks|
    ensures var r := BatchPass(document, Batches(chunks), embed);
      Contents(r.rows) == chunks[..|r.rows|]
      && (r.error.None? <==> |r.rows| == |chunks|)
      && (r.error.Some? ==> |r.rows| % BatchSize == 0 && |r.rows| < |chunks|)
      && forall j :: 0 <= j < |r.rows| ==> r.rows[j].document == document
    decreases |chunks|
  {
    if chunks != [] {
      var first := Batches(chunks)[0];
      var rest := if |chunks| <= BatchSize then [] else chunks[BatchSize..];
      assert Batches(chunks)[1..] == Batches(rest);
      assert first == chunks[..|first|];
      BatchPassStoresPrefix(document, rest, embed);
      var r := BatchPass(document, Batches(chunks), embed);
      match BatchRows(document, first, embed)
      case Raised(_) =>
      case Ok(rows) =>
        var tail := BatchPass(document, Batches(rest), embed);
        assert r.rows == rows + tail.rows;
        ContentsAppend(rows, tail.rows);
        assert chunks == first + rest;
        assert chunks[..|r.rows|] == first + rest[..|tail.rows|];
    }
  }

  /** Stored row j holds chunk j and the j mod 10-th vector of its batch's embeddings. */
  lemma {:induction false} BatchPassPairsEmbeddings(document: nat, chunks: seq<string>, embed: Embedder, j: nat)
    requires j < |BatchPass(document, Batches(chunks), embed).rows|
    ensures j < |chunks| && j / BatchSize < |Batches(chunks)|
    ensures var r := BatchPass(document, Batches(chunks), embed);
      var batch := Batches(chunks)[j / BatchSize];
      embed(batch).Ok? && j % BatchSize < |embed(batch).value|
      && r.rows[j] == Chunk(document, chunks[j], embed(batch).value[j % BatchSize])
    decreases |chunks|
  {
    var first := Batches(chunks)[0];
    var rest := if |chunks| <= BatchSize then [] else chunks[BatchSize..];
    assert Batches(chunks)[1..] == Batches(rest);
    assert BatchRows(document, first, embed).Ok?;
    var rows := BatchRows(document, first, embed).value;
    var tail := BatchPass(document, Batches(rest), embed);
    assert BatchPass(document, Batches(chunks), embed).rows == rows + tail.rows;
    if j < |rows| {
      assert |first| <= BatchSize;
      assert j / BatchSize == 0 && j % BatchSize == j;
      assert first == chunks[..|first|];
    } else {
      assert |chunks| > BatchSize && |rows| == BatchSize;
      BatchPassPairsEmbeddings(document, rest, embed, j - BatchSize);
      assert (j - BatchSize) / BatchSize == j / BatchSize - 1;
      assert (j - BatchSize) % BatchSize == j % BatchSize;
      assert chunks[j] == rest[j - BatchSize];
    }
  }

  // ---------------------------------------------------------------------------
  // The per-chunk pass: process_chunk(i, chunks[i], document) for every i
  // ---------------------------------------------------------------------------

  /** What one call of process_chunk stores (if anything) and the message it returns. */
  datatype ChunkResult = ChunkResult(row: Option<Chunk>, message: string)

  function ChunkOutcome(document: nat, index: nat, chunk: string, embed: Embedder): (r: ChunkResult)
    ensures r.row.Some? <==> embed([chunk]).Ok? && |embed([chunk]).value| > 0
    ensures r.row.Some? ==> r.row.value == Chunk(document, chunk, embed([chunk]).value[0])
    ensures r.row.Some? ==> r.message == "Chunk " + NatToString(index + 1) + " procesado"
    ensures r.row.None? ==>
      r.message == "Error en chunk " + NatToString(index + 1) + ": " + (if embed([chunk]).Raised? then embed([chunk]).error else IndexErrorMessage)
  {
    var number := NatToString(index + 1);
    match embed([chunk])
    case Raised(e) => ChunkResult(None, "Error en chunk " + number + ": " + e)
    case Ok(vectors) =>
      if |vectors| == 0 then ChunkResult(None, "Error en chunk " + number + ": " + IndexErrorMessage)
      else ChunkResult(Some(Chunk(document, chunk, vectors[0])), "Chunk " + number + " procesado")
  }

  function RowsOf(row: Option<Chunk>): seq<Chunk> {
    match row
    case Some(c) => [c]
    case None => []
  }

  datatype ChunkPassResult = ChunkPassResult(rows: seq<Chunk>, messages: seq<string>)

  /** The rows and messages of process_chunk over the chunk list, in chunk order. */
  function ChunkPass(document: nat, chunks: seq<string>, embed: Embedder): (r: ChunkPassResult)
    ensures |r.messages| == |chunks| && |r.rows| <= |chunks|
  {
    if chunks == [] then ChunkPassResult([], [])
    else
      var init := ChunkPass(document, chunks[..|chunks| - 1], embed);
      var last := ChunkOutcome(document, |chunks| - 1, chunks[|chunks| - 1], embed);
      ChunkPassResult(init.rows + RowsOf(last.row), init.messages + [last.message])
  }

  /** Each single-chunk call to the embedder gives at least one vector. */
  predicate EmbedsEachChunk(chunks: seq<string>, embed: Embedder) {
    forall i :: 0 <= i < |chunks| ==> embed([chunks[i]]).Ok? && |embed([chunks[i]]).value| > 0
  }

  /** When every single-chunk embedding succeeds, the per-chunk pass stores every chunk once, in order. */
  lemma {:induction false} ChunkPassStoresEveryChunk(document: nat, chunks: seq<string>, embed: Embedder)
    requires EmbedsEachChunk(chunks, embed)
    ensures Contents(ChunkPass(document, chunks, embed).rows) == chunks
    decreases |chunks|
  {
    if chunks != [] {
      var init := chunks[..|chunks| - 1];
      ChunkPassStoresEveryChunk(document, init, embed);
      ContentsAppend(ChunkPass(document, init, embed).rows,
                     RowsOf(ChunkOutcome(document, |chunks| - 1, chunks[|chunks| - 1], embed).row));
      assert chunks == init + [chunks[|chunks| - 1]];
    }
  }

  /** Message i of the pass is what process_chunk(i, chunks[i], document) returns. */
  lemma {:induction false} ChunkPassMessages(document: nat, chunks: seq<string>, embed: Embedder, i: nat)
    requires i < |chunks|
    ensures ChunkPass(document, chunks, embed).messages[i] == ChunkOutcome(document, i, chunks[i], embed).message
    decreases |chunks|
  {
    if i < |chunks| - 1 {
      var init := chunks[..|chunks| - 1];
      ChunkPassMessages(document, init, embed, i);
      assert init[i] == chunks[i];
    }
  }

  /** process_chunk stores a row for a chunk iff embedding it alone gives a vector. */
  predicate Embeds(chunk: string, embed: Embedder) {
    embed([chunk]).Ok? && |embed([chunk]).value| > 0
  }

  /** The chunks, in order, whose single embedding gives a vector. */
  function EmbeddedChunks(chunks: seq<string>, embed: Embedder): seq<string>
  {
    if chunks == [] then []
    else if Embeds(chunks[0], embed) then [chunks[0]] + EmbeddedChunks(chunks[1..], embed)
    else EmbeddedChunks(chunks[1..], embed)
  }

  lemma {:induction false} EmbeddedChunksSnoc(chunks: seq<string>, chunk: string, embed: Embedder)
    ensures EmbeddedChunks(chunks + [chunk], embed) ==
      EmbeddedChunks(chunks, embed) + (if Embeds(chunk, embed) then [chunk] else [])
    decreases |chunks|
  {
    if chunks == [] {
      assert [chunk][1..] == [];
    } else {
      assert (chunks + [chunk])[0] == chunks[0];
      assert (chunks + [chunk])[1..] == chunks[1..] + [chunk];
      EmbeddedChunksSnoc(chunks[1..], chunk, embed);
    }
  }

  /**
   * A partly failing pass stores exactly the chunks whose single embedding gives
   * a vector, in chunk order; the others only leave an error message.
   */
  lemma {:induction false} ChunkPassStoresEmbeddedChunks(document: nat, chunks: seq<string>, embed: Embedder)
    ensures Contents(ChunkPass(document, chunks, embed).rows) == EmbeddedChunks(chunks, embed)
    decreases |chunks|
  {
    if chunks != [] {
      var init := chunks[..|chunks| - 1];
      var last := chunks[|chunks| - 1];
      ChunkPassStoresEmbeddedChunks(document, init, embed);
      var row := ChunkOutcome(document, |chunks| - 1, last, embed).row;
      ContentsAppend(ChunkPass(document, init, embed).rows, RowsOf(row));
      assert Contents(RowsOf(row)) == (if Embeds(last, embed) then [last] else []);
      EmbeddedChunksSnoc(init, last, embed);
      assert chunks == init + [last];
    }
  }

  // ---------------------------------------------------------------------------
  // process_document
  // ---------------------------------------------------------------------------

  /**
   * How a run ends: one of the three early returns, an exception caught by the
   * outer handler, or success with the messages of the per-chunk pass.
   */
  datatype IngestOutcome =
    | NoLocalPath
    | FileMissing
    | NoReadableText
    | Aborted(error: string)
    | Indexed(results: seq<string>)

  datatype IngestRun = IngestRun(outcome: IngestOutcome, rows: seq<Chunk>)

  /** The first half of a run: an early return, or the chunks of the document's text. */
  datatype Stage = Stop(outcome: IngestOutcome) | Split(chunks: seq<string>)

  /**
   * The checks before splitting: a truthy local path, a file at that path, and
   * extracted text that is not empty once stripped.
   */
  function Prepare(env: Environment): (r: Stage)
    ensures r.Stop? ==> r.outcome.NoLocalPath? || r.outcome.FileMissing? || r.outcome.NoReadableText?
    ensures r.Stop? && r.outcome.NoLocalPath? <==> env.localPath.None? || env.localPath.value == ""
    ensures r.Stop? && r.outcome.FileMissing? <==>
      env.localPath.Some? && env.localPath.value != "" && !env.fileExists(env.localPath.value)
    ensures r.Stop? && r.outcome.NoReadableText? <==>
      env.localPath.Some? && env.localPath.value != "" && env.fileExists(env.localPath.value)
      && (ExtractedText(env.localPath.value, env.file).None?
          || Strip(ExtractedText(env.localPath.value, env.file).value) == "")
    ensures r.Split? <==>
      (env.localPath.Some? && env.localPath.value != "" && env.fileExists(env.localPath.value)
       && ExtractedText(env.localPath.value, env.file).Some?
       && Strip(ExtractedText(env.localPath.value, env.file).value) != "")
    ensures r.Split? ==> r.chunks == env.split(ExtractedText(env.localPath.value, env.file).value)
  {
    match env.localPath
    case None => Stop(NoLocalPath)
    case Some(path) =>
      if path == "" then Stop(NoLocalPath)
      else if !env.fileExists(path) then Stop(FileMissing)
      else match ExtractedText(path, env.file)
        case None => Stop(NoReadableText)
        case Some(text) =>
          if text == "" || Strip(text) == "" then Stop(NoReadableText)
          else Split(env.split(text))
  }

  /** The second half of a run: the batch pass, then (if it did not raise) the per-chunk pass. */
  function RunChunks(document: nat, chunks: seq<string>, embed: Embedder): IngestRun
  {
    var batches := BatchPass(document, Batches(chunks), embed);
    if batches.error.Some? then IngestRun(Aborted(batches.error.value), batches.rows)
    else
      var each := ChunkPass(document, chunks, embed);
      IngestRun(Indexed(each.messages), batches.rows + each.rows)
  }

  /** What process_document does to the chunk table, and how it ends. */
  function Ingest(document: nat, env: Environment): (r: IngestRun)
    ensures r.outcome.NoLocalPath? || r.outcome.FileMissing? || r.outcome.NoReadableText? ==> r.rows == []
    ensures r.outcome.NoLocalPath? <==> env.localPath.None? || env.localPath.value == ""
  {
    match Prepare(env)
    case Stop(outcome) => IngestRun(outcome, [])
    case Split(chunks) => RunChunks(document, chunks, env.embed)
  }

  /** Every batch of the chunk list is embedded with at least one vector per chunk. */
  predicate EmbedsEachBatch(chunks: seq<string>, embed: Embedder) {
    forall k :: 0 <= k < |Batches(chunks)| ==>
      embed(Batches(chunks)[k]).Ok? && |embed(Batches(chunks)[k]).value| >= |Batches(chunks)[k]|
  }

  lemma {:induction false} BatchPassSucceeds(document: nat, chunks: seq<string>, embed: Embedder)
    ensures BatchPass(document, Batches(chunks), embed).error.None? <==> EmbedsEachBatch(chunks, embed)
    decreases |chunks|
  {
    if chunks != [] {
      var rest := if |chunks| <= BatchSize then [] else chunks[BatchSize..];
      assert Batches(chunks)[1..] == Batches(rest);
      BatchPassSucceeds(document, rest, embed);
      if EmbedsEachBatch(rest, embed) && BatchRows(document, Batches(chunks)[0], embed).Ok? {
        forall k | 0 <= k < |Batches(chunks)|
          ensures embed(Batches(chunks)[k]).Ok? && |embed(Batches(chunks)[k]).value| >= |Batches(chunks)[k]|
        {
          if k > 0 { assert Batches(chunks)[k] == Batches(rest)[k - 1]; }
        }
      }
      if EmbedsEachBatch(chunks, embed) {
        forall k | 0 <= k < |Batches(rest)|
          ensures embed(Batches(rest)[k]).Ok? && |embed(Batches(rest)[k]).value| >= |Batches(rest)[k]|
        {
          assert Batches(rest)[k] == Batches(chunks)[k + 1];
        }
      }
    }
  }

  /**
   * A document ends up indexed exactly when it has a local path, the file is
   * there, the extracted text is not blank, and every batch is embedded: a
   * failing per-chunk call does not prevent it.
   */
  lemma IndexedIff(document: nat, env: Environment)
    ensures Ingest(document, env).outcome.Indexed? <==>
      Prepare(env).Split? && EmbedsEachBatch(Prepare(env).chunks, env.embed)
  {
    if Prepare(env).Split? {
      BatchPassSucceeds(document, Prepare(env).chunks, env.embed);
    }
  }

  /**
   * On a run where every embedding call succeeds, each chunk is stored twice:
   * once by the batch pass, then once more by the per-chunk pass.
   */
  lemma EveryChunkStoredTwice(document: nat, chunks: seq<string>, embed: Embedder)
    requires EmbedsEachBatch(chunks, embed)
    requires EmbedsEachChunk(chunks, embed)
    ensures RunChunks(document, chunks, embed).outcome.Indexed?
    ensures |RunChunks(document, chunks, embed).outcome.results| == |chunks|
    ensures Contents(RunChunks(document, chunks, embed).rows) == chunks + chunks
  {
    BatchPassSucceeds(document, chunks, embed);
    BatchPassStoresPrefix(document, chunks, embed);
    ChunkPassStoresEveryChunk(document, chunks, embed);
    var b := BatchPass(document, Batches(chunks), embed);
    var c := ChunkPass(document, chunks, embed);
    ContentsAppend(b.rows, c.rows);
    assert chunks[..|b.rows|] == chunks;
  }

  /**
   * An exception in a batch leaves the document unprocessed but keeps the rows
   * of the batches stored before it: no rollback.
   */
  lemma AbortedRunKeepsEarlierBatches(document: nat, chunks: seq<string>, embed: Embedder)
    requires RunChunks(document, chunks, embed).outcome.Aborted?
    ensures |RunChunks(document, chunks, embed).rows| < |chunks|
    ensures |RunChunks(document, chunks, embed).rows| % BatchSize == 0
    ensures Contents(RunChunks(document, chunks, embed).rows) ==
      chunks[..|RunChunks(document, chunks, embed).rows|]
  {
    BatchPassStoresPrefix(document, chunks, embed);
  }

  /** Once the batch pass succeeds, per-chunk failures only become messages, one per chunk. */
  lemma ChunkFailuresOnlyReported(document: nat, chunks: seq<string>, embed: Embedder)
    requires EmbedsEachBatch(chunks, embed)
    ensures RunChunks(document, chunks, embed).outcome ==
      Indexed(ChunkPass(document, chunks, embed).messages)
    ensures |RunChunks(document, chunks, embed).outcome.results| == |chunks|
  {
    BatchPassSucceeds(document, chunks, embed);
  }

  lemma {:induction false} ChunkPassRowsBelong(document: nat, chunks: seq<string>, embed: Embedder)
    ensures forall j :: 0 <= j < |ChunkPass(document, chunks, embed).rows| ==>
      ChunkPass(document, chunks, embed).rows[j].document == document
    decreases |chunks|
  {
    if chunks != [] {
      ChunkPassRowsBelong(document, chunks[..|chunks| - 1], embed);
    }
  }

  /** A run only ever stores rows that point at the document being processed. */
  lemma IngestRowsBelong(document: nat, env: Environment)
    ensures forall j :: 0 <= j < |Ingest(document, env).rows| ==> Ingest(document, env).rows[j].document == document
  {
    if Prepare(env).Split? {
      var chunks := Prepare(env).chunks;
      BatchPassStoresPrefix(document, chunks, env.embed);
      ChunkPassRowsBelong(document, chunks, env.embed);
    }
  }

  /**
   * process_document as the source has it: `document.local_path` is read inside
   * the outer `try`, and APIDocument has no such attribute, so every run is
   * aborted by an AttributeError before anything is read or stored.
   */
  function IngestAsWritten(document: nat, env: Environment): (r: IngestRun)
    ensures r.rows == [] && !r.outcome.Indexed?
  {
    IngestRun(Aborted("'APIDocument' object has no attribute 'local_path'"), [])
  }

  /** A readable file with embeddable batches is indexed by the intended run and never as written. */
  lemma AsWrittenNeverIndexes(document: nat, env: Environment)
    requires Prepare(env).Split? && EmbedsEachBatch(Prepare(env).chunks, env.embed)
    ensures Ingest(document, env).outcome.Indexed?
    ensures !IngestAsWritten(document, env).outcome.Indexed?
  {
    IndexedIff(document, env);
  }

  // ---------------------------------------------------------------------------
  // The imperative code
  // ---------------------------------------------------------------------------

  /** process_chunk: embed one chunk and store it; every exception becomes the returned message. */
  method ProcessChunk(index: nat, chunk: string, document: nat, embed: Embedder, table: ChunkTable)
    returns (message: string)
    modifies table
    ensures var r := ChunkOutcome(document, index, chunk, embed);
      message == r.message && table.rows == old(table.rows) + RowsOf(r.row)
  {
    var number := NatToString(index + 1);
    match embed([chunk])
    case Raised(e) =>
      message := "Error en chunk " + number + ": " + e;
    case Ok(vectors) =>
      if |vectors| == 0 {
        message := "Error en chunk " + number + ": " + IndexErrorMessage;
      } else {
        table.Create(Chunk(document, chunk, vectors[0]));
        message := "Chunk " + number + " procesado";
      }
  }

  /** The batch pass over one more batch in front. */
  lemma BatchPassCons(document: nat, batch: seq<string>, batches: seq<seq<string>>, embed: Embedder)
    ensures BatchPass(document, [batch] + batches, embed) ==
      match BatchRows(document, batch, embed)
      case Raised(e) => BatchPassResult([], Some(e))
      case Ok(rows) =>
        var rest := BatchPass(document, batches, embed);
        BatchPassResult(rows + rest.rows, rest.error)
  {
    assert ([batch] + batches)[1..] == batches;
  }

  /** One turn of the batch loop: embed the batch, then `bulk_create` its rows. */
  method StoreBatch(document: nat, batch: seq<string>, embed: Embedder, table: ChunkTable)
    returns (error: Option<string>)
    modifies table
    ensures var r := BatchRows(document, batch, embed);
      error == (if r.Ok? then None else Some(r.error))
      && table.rows == old(table.rows) + (if r.Ok? then r.value else [])
  {
    match embed(batch)
    case Raised(e) =>
      return Some(e);
    case Ok(vectors) =>
      if |vectors| < |batch| {
        return Some(IndexErrorMessage);
      }
      var rows := seq(|batch|, j requires 0 <= j < |batch| => Chunk(document, batch[j], vectors[j]));
      assert BatchRows(document, batch, embed) == Ok(rows);
      table.BulkCreate(rows);
      return None;
  }

  /** The slices from offset `i` on: the one ending at `end`, then the rest. */
  lemma BatchesFrom<T>(xs: seq<T>, i: nat, end: nat)
    requires i < |xs| && end == (if i + BatchSize < |xs| then i + BatchSize else |xs|)
    ensures Batches(xs[i..]) == [xs[i..end]] + Batches(xs[end..])
  {
    if end == |xs| {
      assert xs[end..] == [] && xs[i..end] == xs[i..];
    } else {
      assert xs[i..][..BatchSize] == xs[i..end] && xs[i..][BatchSize..] == xs[end..];
    }
  }

  /** Loop invariant of the batch loop: `stored` followed by the pass from offset `i` is the whole pass. */
  ghost predicate StoredUpTo(document: nat, chunks: seq<string>, embed: Embedder, i: nat, stored: seq<Chunk>)
    requires i <= |chunks|
  {
    var rest := BatchPass(document, Batches(chunks[i..]), embed);
    BatchPass(document, Batches(chunks), embed) == BatchPassResult(stored + rest.rows, rest.error)
  }

  /** One turn of the batch loop: the slice at offset `i`, embedded and stored. */
  method StoreNextBatch(document: nat, chunks: seq<string>, embed: Embedder, table: ChunkTable,
                        i: nat, ghost stored: seq<Chunk>)
    returns (error: Option<string>, end: nat, ghost added: seq<Chunk>)
    requires i < |chunks| && StoredUpTo(document, chunks, embed, i, stored)
    modifies table
    ensures i < end <= |chunks| && table.rows == old(table.rows) + added
    ensures error.Some? ==>
      added == [] && BatchPass(document, Batches(chunks), embed) == BatchPassResult(stored, error)
    ensures error.None? ==> StoredUpTo(document, chunks, embed, end, stored + added)
  {
    end := if i + BatchSize < |chunks| then i + BatchSize else |chunks|;
    var batch := chunks[i..end];
    BatchesFrom(chunks, i, end);
    BatchPassCons(document, batch, Batches(chunks[end..]), embed);
    error := StoreBatch(document, batch, embed, table);
    if error.Some? {
      added := [];
      assert stored + [] == stored;
    } else {
      added := BatchRows(document, batch, embed).value;
      ghost var rest := BatchPass(document, Batches(chunks[end..]), embed);
      assert stored + (added + rest.rows) == (stored + added) + rest.rows;
    }
  }

  /** The batch loop of process_document; it stops at the first exception. */
  method StoreBatches(document: nat, chunks: seq<string>, embed: Embedder, table: ChunkTable)
    returns (error: Option<string>)
    modifies table
    ensures var whole := BatchPass(document, Batches(chunks), embed);
      error == whole.error && table.rows == old(table.rows) + whole.rows
  {
    var i := 0;
    ghost var stored: seq<Chunk> := [];
    assert chunks[0..] == chunks;
    while i < |chunks|
      invariant i <= |chunks| && StoredUpTo(document, chunks, embed, i, stored)
      invariant table.rows == old(table.rows) + stored
    {
      var failed, end, added := StoreNextBatch(document, chunks, embed, table, i, stored);
      if failed.Some? {
        assert stored + [] == stored;
        return failed;
      }
      stored := stored + added;
      i := end;
    }
    assert chunks[i..] == [];
    assert stored + [] == stored;
    return None;
  }

  /** The per-chunk pass of process_document, one process_chunk call per chunk, in chunk order. */
  method StoreEachChunk(document: nat, chunks: seq<string>, embed: Embedder, table: ChunkTable)
    returns (results: seq<string>)
    modifies table
    ensures var each := ChunkPass(document, chunks, embed);
      results == each.messages && table.rows == old(table.rows) + each.rows
  {
    results := [];
    var k := 0;
    while k < |chunks|
      invariant 0 <= k <= |chunks|
      invariant var each := ChunkPass(document, chunks[..k], embed);
        table.rows == old(table.rows) + each.rows && results == each.messages
    {
      assert chunks[..k + 1][..k] == chunks[..k];
      var message := ProcessChunk(k, chunks[k], document, embed, table);
      results := results + [message];
      k := k + 1;
    }
    assert chunks[..k] == chunks;
  }

  /** The rest of process_document once the text is split: both passes, then `processed`. */
  method IndexChunks(doc: Document, chunks: seq<string>, embed: Embedder, table: ChunkTable)
    returns (outcome: IngestOutcome)
    modifies doc`processed, table
    ensures outcome == RunChunks(doc.id, chunks, embed).outcome
    ensures table.rows == old(table.rows) + RunChunks(doc.id, chunks, embed).rows
    ensures doc.processed == (old(doc.processed) || outcome.Indexed?)
  {
    ghost var before := table.rows;
    ghost var run := RunChunks(doc.id, chunks, embed);
    ghost var pass := BatchPass(doc.id, Batches(chunks), embed);
    var error := StoreBatches(doc.id, chunks, embed, table);
    if error.Some? {
      assert run == IngestRun(Aborted(error.value), pass.rows);
      return Aborted(error.value);
    }
    ghost var each := ChunkPass(doc.id, chunks, embed);
    var results := StoreEachChunk(doc.id, chunks, embed, table);
    assert run == IngestRun(Indexed(results), pass.rows + each.rows);
    assert (before + pass.rows) + each.rows == before + (pass.rows + each.rows);
    doc.processed := true;
    return Indexed(results);
  }

  /**
   * process_document: the early returns, the batch loop, the per-chunk loop
   * (run in order here; the source runs it on four threads), and the final
   * update of `processed`.
   */
  method ProcessDocument(doc: Document, env: Environment, table: ChunkTable) returns (outcome: IngestOutcome)
    modifies doc`processed, table
    ensures outcome == Ingest(doc.id, env).outcome
    ensures table.rows == old(table.rows) + Ingest(doc.id, env).rows
    ensures doc.processed == (old(doc.processed) || outcome.Indexed?)
  {
    var stage := Prepare(env);
    match stage
    case Stop(early) =>
      assert table.rows == old(table.rows) + [];
      return early;
    case Split(chunks) =>
      outcome := IndexChunks(doc, chunks, env.embed, table);
  }
}
