/**
 * Document ingestion and retrieval of the AI service
 * (ai-service/app/services/rag_service.py).
 *
 * Text is extracted from an uploaded file by its lower-cased suffix, split
 * into chunks, embedded in batches of 100 and inserted into the `documents`
 * table; a batch that fails is logged and the next one is still attempted.
 * Search embeds the query, asks the table for matches and formats each row
 * as "[From <source>]:\n<content>".
 *
 * The PDF and PowerPoint readers, the UTF-8 decoder, the text splitter, the
 * embedding client and the Supabase client are foreign: a file carries what
 * each reader would return, and the clients are function-valued constants
 * where None stands for "raised an exception".
 */
module RagService {
  import opened Base

  const BATCH_SIZE: nat := 100

  /** The default `limit` of `search`. */
  const DEFAULT_LIMIT: int := 3

  // ---------------------------------------------------------------------
  // File suffix
  // ---------------------------------------------------------------------

  /** `str.rfind`: the last index of `c` in `s`, or -1. */
  function LastIndexOf(s: string, c: char): (i: int)
    ensures -1 <= i < |s|
    ensures i >= 0 ==> s[i] == c
    ensures forall j :: i < j < |s| ==> s[j] != c
  {
    if s == [] then -1
    else if s[|s| - 1] == c then |s| - 1
    else LastIndexOf(s[..|s| - 1], c)
  }

  /** `Path.suffix` of a file name: from the last dot on, unless that dot is the first or the last character. */
  function Suffix(name: string): (r: string)
    ensures r != "" ==> 2 <= |r| < |name| && r[0] == '.' && name[|name| - |r|..] == r
    ensures forall j :: 1 <= j < |r| ==> r[j] != '.'
  {
    var i := LastIndexOf(name, '.');
    if 0 < i < |name| - 1 then name[i..] else ""
  }

  /**
   * A name has suffix "." + `ext` (for a non-empty, dot-free `ext`) exactly
   * when it ends with "." + `ext` and has at least one character before it.
   */
  lemma {:induction false} SuffixIs(name: string, ext: string)
    requires ext != [] && forall j :: 0 <= j < |ext| ==> ext[j] != '.'
    ensures Suffix(name) == "." + ext <==>
      (|name| > |ext| + 1 && name[|name| - |ext| - 1..] == "." + ext)
  {
    var d := "." + ext;
    var i := LastIndexOf(name, '.');
    if Suffix(name) == d {
      assert 0 < i < |name| - 1 && name[i..] == d;
    }
    if |name| > |ext| + 1 && name[|name| - |ext| - 1..] == d {
      var k := |name| - |ext| - 1;
      assert name[k] == d[0] == '.';
      forall j | k < j < |name| ensures name[j] != '.' {
        assert name[j] == d[j - k] == ext[j - k - 1];
      }
      assert i == k;
    }
  }

  /**
   * The extension test of the extractor: the lower-cased suffix is "." + `ext`
   * exactly when the name ends, in any letter case, with "." + `ext` after at
   * least one character.
   */
  lemma {:induction false} LowerSuffixIs(name: string, ext: string)
    requires ext != [] && forall j :: 0 <= j < |ext| ==> ext[j] != '.'
    ensures Lower(Suffix(name)) == "." + ext <==>
      (|name| > |ext| + 1 && Lower(name[|name| - |ext| - 1..]) == "." + ext)
  {
    var d := "." + ext;
    var k := |name| - |ext| - 1;
    var r := Suffix(name);
    if Lower(r) == d {
      assert |r| == |d| && r != "";
      assert name[k..] == r;
    }
    if |name| > |ext| + 1 && Lower(name[k..]) == d {
      var t := name[k..];
      assert LowerChar(t[0]) == d[0] == '.';
      forall j | k < j < |name| ensures name[j] != '.' {
        assert LowerChar(t[j - k]) == d[j - k] == ext[j - k - 1];
        assert name[j] == t[j - k];
      }
      assert LastIndexOf(name, '.') == k;
    }
  }

  // ---------------------------------------------------------------------
  // Text extraction
  // ---------------------------------------------------------------------

  /** A shape on a slide; `text` is None when the shape has no text attribute. */
  datatype Shape = Shape(text: Option<string>)

  /**
   * An uploaded file as each reader sees it: the text pypdf extracts from
   * each page, the shapes python-pptx finds on each slide, and the content
   * decoded as UTF-8. A reader that raises on this file gives None.
   */
  datatype FileData = FileData(
    name: string,
    pdf: Option<seq<string>>,
    pptx: Option<seq<seq<Shape>>>,
    utf8: Option<string>)

  /** What one page or shape contributes: nothing when empty, otherwise itself and a newline. */
  function Piece(p: string): string {
    if p == "" then "" else p + "\n"
  }

  /** The accumulated text of a sequence of pieces, in order. */
  function Joined(pieces: seq<string>): string {
    if pieces == [] then "" else Piece(pieces[0]) + Joined(pieces[1..])
  }

  /** Joining is compositional: the pieces appear in document order. */
  lemma {:induction false} JoinedAppend(a: seq<string>, b: seq<string>)
    ensures Joined(a + b) == Joined(a) + Joined(b)
  {
    if a == [] {
      assert a + b == b;
    } else {
      assert (a + b)[1..] == a[1..] + b;
      JoinedAppend(a[1..], b);
    }
  }

  /** Appending one piece appends its contribution, as the extraction loops do. */
  lemma {:induction false} JoinedSnoc(pieces: seq<string>, p: string)
    ensures Joined(pieces + [p]) == Joined(pieces) + Piece(p)
  {
    JoinedAppend(pieces, [p]);
    assert [p][1..] == [];
  }

  /** Nothing is extracted exactly when every piece is empty. */
  lemma {:induction false} JoinedEmpty(pieces: seq<string>)
    ensures Joined(pieces) == "" <==> forall j :: 0 <= j < |pieces| ==> pieces[j] == ""
  {
    if pieces != [] {
      var rest := pieces[1..];
      JoinedEmpty(rest);
      assert (forall j :: 0 <= j < |pieces| ==> pieces[j] == "")
        <==> pieces[0] == "" && forall j :: 0 <= j < |rest| ==> rest[j] == "";
    }
  }

  /** A shape's text as the extractor reads it: "" when it has none. */
  function ShapeText(sh: Shape): string {
    if sh.text.Some? then sh.text.value else ""
  }

  function ShapeTexts(shapes: seq<Shape>): (r: seq<string>)
    ensures |r| == |shapes|
    ensures forall j :: 0 <= j < |r| ==> r[j] == ShapeText(shapes[j])
  {
    seq(|shapes|, j requires 0 <= j < |shapes| => ShapeText(shapes[j]))
  }

  lemma {:induction false} ShapeTextsSnoc(shapes: seq<Shape>, j: nat)
    requires j < |shapes|
    ensures ShapeTexts(shapes[..j + 1]) == ShapeTexts(shapes[..j]) + [ShapeText(shapes[j])]
  {
  }

  /** The texts of all shapes, slide by slide, shape by shape. */
  function SlideTexts(slides: seq<seq<Shape>>): seq<string> {
    if slides == [] then [] else SlideTexts(slides[..|slides| - 1]) + ShapeTexts(slides[|slides| - 1])
  }

  /** `_extract_text`: dispatch on the lower-cased suffix; any reader exception yields "". */
  function Extracted(file: FileData): string {
    var ext := Lower(Suffix(file.name));
    if ext == ".pdf" then
      (if file.pdf.Some? then Joined(file.pdf.value) else "")
    else if ext == ".pptx" then
      (if file.pptx.Some? then Joined(SlideTexts(file.pptx.value)) else "")
    else
      (if file.utf8.Some? then file.utf8.value else "")
  }

  /**
   * Which reader a file name selects: a name ending in ".pdf" or ".pptx" in
   * any letter case, after at least one character, is read as PDF or
   * PowerPoint; any other name is read as UTF-8 text.
   */
  lemma {:induction false} ExtractedByName(file: FileData)
    ensures var n := file.name;
      |n| > 4 && Lower(n[|n| - 4..]) == ".pdf" ==>
        Extracted(file) == if file.pdf.Some? then Joined(file.pdf.value) else ""
    ensures var n := file.name;
      |n| > 5 && Lower(n[|n| - 5..]) == ".pptx" ==>
        Extracted(file) == if file.pptx.Some? then Joined(SlideTexts(file.pptx.value)) else ""
    ensures var n := file.name;
      !(|n| > 4 && Lower(n[|n| - 4..]) == ".pdf") && !(|n| > 5 && Lower(n[|n| - 5..]) == ".pptx") ==>
        Extracted(file) == if file.utf8.Some? then file.utf8.value else ""
  {
    var n := file.name;
    assert "." + "pdf" == ".pdf" && "." + "pptx" == ".pptx";
    LowerSuffixIs(n, "pdf");
    LowerSuffixIs(n, "pptx");
    var ext := Lower(Suffix(n));
    assert ext == ".pdf" <==> |n| > 4 && Lower(n[|n| - 4..]) == ".pdf";
    assert ext == ".pptx" <==> |n| > 5 && Lower(n[|n| - 5..]) == ".pptx";
  }

  /** `_extract_text` as the source runs it: dispatch, then loops that grow the text piece by piece. */
  method ExtractText(file: FileData) returns (text: string)
    ensures text == Extracted(file)
  {
    var ext := Lower(Suffix(file.name));
    if ext == ".pdf" {
      text := "";
      if file.pdf.Some? {
        text := ExtractPdf(file.pdf.value);
      }
    } else if ext == ".pptx" {
      text := "";
      if file.pptx.Some? {
        text := ExtractPptx(file.pptx.value);
      }
    } else {
      text := if file.utf8.Some? then file.utf8.value else "";
    }
  }

  /** The PDF branch: each page's non-empty text followed by a newline. */
  method ExtractPdf(pages: seq<string>) returns (text: string)
    ensures text == Joined(pages)
  {
    text := "";
    var i := 0;
    while i < |pages|
      invariant 0 <= i <= |pages|
      invariant text == Joined(pages[..i])
    {
      assert pages[..i + 1] == pages[..i] + [pages[i]];
      JoinedSnoc(pages[..i], pages[i]);
      if pages[i] != "" {
        text := text + pages[i] + "\n";
      }
      i := i + 1;
    }
    assert pages[..i] == pages;
  }

  /** The PowerPoint branch: each shape's non-empty text followed by a newline, slide by slide. */
  method ExtractPptx(slides: seq<seq<Shape>>) returns (text: string)
    ensures text == Joined(SlideTexts(slides))
  {
    text := "";
    var i := 0;
    while i < |slides|
      invariant 0 <= i <= |slides|
      invariant text == Joined(SlideTexts(slides[..i]))
    {
      var shapes := slides[i];
      ghost var pre := SlideTexts(slides[..i]);
      var j := 0;
      assert pre + ShapeTexts(shapes[..0]) == pre;
      while j < |shapes|
        invariant 0 <= j <= |shapes|
        invariant text == Joined(pre + ShapeTexts(shapes[..j]))
      {
        ShapeTextsSnoc(shapes, j);
        JoinedSnoc(pre + ShapeTexts(shapes[..j]), ShapeText(shapes[j]));
        assert pre + ShapeTexts(shapes[..j + 1]) == (pre + ShapeTexts(shapes[..j])) + [ShapeText(shapes[j])];
        if shapes[j].text.Some? && shapes[j].text.value != "" {
          text := text + shapes[j].text.value + "\n";
        }
        j := j + 1;
      }
      assert shapes[..j] == shapes;
      assert slides[..i + 1][..i] == slides[..i];
      i := i + 1;
    }
    assert slides[..i] == slides;
  }

  // ---------------------------------------------------------------------
  // Batching
  // ---------------------------------------------------------------------

  /** Iterations of `for i in range(0, n, 100)`. */
  function NumBatches(n: nat): nat {
    (n + BATCH_SIZE - 1) / BATCH_SIZE
  }

  function Min(a: int, b: int): int {
    if a <= b then a else b
  }

  /** `chunks[i:i+100]` for the k-th offset i = 100 * k. */
  function Batch(chunks: seq<string>, k: nat): (b: seq<string>)
    requires k < NumBatches(|chunks|)
    ensures 0 < |b| <= BATCH_SIZE
  {
    chunks[k * BATCH_SIZE..Min(k * BATCH_SIZE + BATCH_SIZE, |chunks|)]
  }

  function Batches(chunks: seq<string>): (bs: seq<seq<string>>)
    ensures |bs| == NumBatches(|chunks|)
  {
    seq(NumBatches(|chunks|), k requires 0 <= k < NumBatches(|chunks|) => Batch(chunks, k))
  }

  function Flatten<T>(xss: seq<seq<T>>): seq<T> {
    if xss == [] then [] else Flatten(xss[..|xss| - 1]) + xss[|xss| - 1]
  }

  /** The first k batches cover exactly the first min(100 k, n) chunks. */
  lemma {:induction false} BatchesPrefix(chunks: seq<string>, k: nat)
    requires k <= NumBatches(|chunks|)
    ensures Flatten(Batches(chunks)[..k]) == chunks[..Min(k * BATCH_SIZE, |chunks|)]
  {
    if k > 0 {
      var bs := Batches(chunks);
      assert bs[..k][..k - 1] == bs[..k - 1];
      BatchesPrefix(chunks, k - 1);
      assert (k - 1) * BATCH_SIZE < |chunks|;
      assert chunks[..Min(k * BATCH_SIZE, |chunks|)]
        == chunks[..(k - 1) * BATCH_SIZE] + Batch(chunks, k - 1);
    }
  }

  /** The batches, concatenated in order, are exactly the chunks. */
  lemma {:induction false} BatchesCover(chunks: seq<string>)
    ensures Flatten(Batches(chunks)) == chunks
  {
    var n := |chunks|;
    BatchesPrefix(chunks, NumBatches(n));
    assert Batches(chunks)[..NumBatches(n)] == Batches(chunks);
    assert NumBatches(n) * BATCH_SIZE >= n;
  }

  /** The total the log reports, `(n - 1) // 100 + 1`, is the number of iterations (0 for no chunks). */
  lemma {:induction false} ReportedTotal(n: nat)
    ensures (n - 1) / BATCH_SIZE + 1 == NumBatches(n)
  {
  }

  // ---------------------------------------------------------------------
  // Indexing
  // ---------------------------------------------------------------------

  datatype Vector = Vector(values: seq<real>)

  /** A row of the `documents` table: content, its embedding and `metadata.source`. */
  datatype Row = Row(content: string, embedding: Vector, source: string)

  /** A key of a JSON object: missing, present with null, or present with a string. */
  datatype JsonField = Absent | JsonNull | JsonString(s: string)

  /** `metadata` of a matched row: absent, JSON null, or an object whose "source" key is a field. */
  datatype Metadata = NoMetadata | NullMetadata | MetadataDict(source: JsonField)

  /** A row returned by `match_documents`. */
  datatype MatchRow = MatchRow(metadata: Metadata, content: JsonField)

  /** The outcome of the `match_documents` RPC: it raised, or its `data` (possibly null). */
  datatype RpcResult = RpcError | RpcData(data: Option<seq<MatchRow>>)

  /** The Supabase client's `documents` table. */
  class DocumentStore {
    var rows: seq<Row>
    /** Whether `insert(data).execute()` raises. */
    const rejects: seq<Row> -> bool
    /** `rpc("match_documents", {query_embedding, match_count}).execute()`. */
    const matchDocuments: (Vector, int) -> RpcResult

    constructor(rejects: seq<Row> -> bool, matchDocuments: (Vector, int) -> RpcResult)
      ensures rows == [] && this.rejects == rejects && this.matchDocuments == matchDocuments
    {
      rows := [];
      this.rejects := rejects;
      this.matchDocuments := matchDocuments;
    }

    method Insert(data: seq<Row>) returns (ok: bool)
      modifies this
      ensures ok == !rejects(data)
      ensures rows == if ok then old(rows) + data else old(rows)
    {
      ok := !rejects(data);
      if ok {
        rows := rows + data;
      }
    }
  }

  /** The embedding client; None where a call raises. */
  datatype Embedder = Embedder(
    embedDocuments: seq<string> -> Option<seq<Vector>>,
    embedQuery: string -> Option<Vector>)

  /** The rows built for one batch: `zip(batch, vectors)` with the file name as source. */
  function RowsOf(batch: seq<string>, vectors: seq<Vector>, filename: string): (r: seq<Row>)
    ensures |r| == Min(|batch|, |vectors|)
    ensures forall j :: 0 <= j < |r| ==> r[j] == Row(batch[j], vectors[j], filename)
  {
    seq(Min(|batch|, |vectors|), j requires 0 <= j < Min(|batch|, |vectors|) => Row(batch[j], vectors[j], filename))
  }

  /** The rows one batch adds to the table, or None if embedding or inserting it raises. */
  function BatchRows(rejects: seq<Row> -> bool, e: Embedder, batch: seq<string>, filename: string): Option<seq<Row>> {
    var vectors := e.embedDocuments(batch);
    if vectors.None? then None
    else
      var data := RowsOf(batch, vectors.value, filename);
      if rejects(data) then None else Some(data)
  }

  /** One log line per batch, numbered from 1. */
  datatype BatchLog = Indexed(batch: nat, total: int) | Failed(batch: nat)

  /** What `add_document` did. */
  datatype AddOutcome = NotConfigured | NoText | Finished(chunkCount: nat, log: seq<BatchLog>)

  /** The rows a batch adds: none when it fails. */
  function Added(rejects: seq<Row> -> bool, e: Embedder, batch: seq<string>, filename: string): seq<Row> {
    var rows := BatchRows(rejects, e, batch, filename);
    if rows.Some? then rows.value else []
  }

  /** The log line of the batch numbered `number`. */
  function LogLine(rejects: seq<Row> -> bool, e: Embedder, batch: seq<string>, filename: string, number: nat, total: int): BatchLog {
    if BatchRows(rejects, e, batch, filename).Some? then Indexed(number, total) else Failed(number)
  }

  /** The rows the first `k` batches of `chunks` add, in batch order. */
  function IndexedRows(rejects: seq<Row> -> bool, e: Embedder, chunks: seq<string>, k: nat, filename: string): seq<Row>
    requires k <= NumBatches(|chunks|)
  {
    if k == 0 then []
    else IndexedRows(rejects, e, chunks, k - 1, filename) + Added(rejects, e, Batch(chunks, k - 1), filename)
  }

  /** Batch k extends the rows of the batches before it. */
  lemma {:induction false} IndexedRowsNext(rejects: seq<Row> -> bool, e: Embedder, chunks: seq<string>, k: nat, filename: string, start: seq<Row>)
    requires k < NumBatches(|chunks|)
    ensures start + IndexedRows(rejects, e, chunks, k + 1, filename)
      == start + IndexedRows(rejects, e, chunks, k, filename) + Added(rejects, e, Batch(chunks, k), filename)
  {
  }

  /** The log lines of the first `k` batches of `chunks`. */
  function BatchLogs(rejects: seq<Row> -> bool, e: Embedder, chunks: seq<string>, k: nat, filename: string, total: int): (log: seq<BatchLog>)
    requires k <= NumBatches(|chunks|)
    ensures |log| == k
  {
    if k == 0 then []
    else BatchLogs(rejects, e, chunks, k - 1, filename, total) + [LogLine(rejects, e, Batch(chunks, k - 1), filename, k, total)]
  }

  /** Every batch is attempted and logged under its own number, whatever happened to earlier ones. */
  lemma {:induction false} BatchLogsAt(rejects: seq<Row> -> bool, e: Embedder, chunks: seq<string>, k: nat, filename: string, total: int)
    requires k <= NumBatches(|chunks|)
    ensures var log := BatchLogs(rejects, e, chunks, k, filename, total);
      forall j :: 0 <= j < k ==>
        log[j] == if BatchRows(rejects, e, Batch(chunks, j), filename).Some? then Indexed(j + 1, total) else Failed(j + 1)
  {
    if k > 0 {
      BatchLogsAt(rejects, e, chunks, k - 1, filename, total);
    }
  }

  /** Every row the indexing adds carries the file name as its source and a chunk of the file as content. */
  lemma {:induction false} IndexedRowsFromChunks(rejects: seq<Row> -> bool, e: Embedder, chunks: seq<string>, k: nat, filename: string)
    requires k <= NumBatches(|chunks|)
    ensures forall r :: r in IndexedRows(rejects, e, chunks, k, filename) ==>
      r.source == filename && r.content in chunks
  {
    if k > 0 {
      IndexedRowsFromChunks(rejects, e, chunks, k - 1, filename);
      AddedFromBatch(rejects, e, chunks, k - 1, filename);
    }
  }

  /** The rows one batch adds are built from that batch's chunks and name the file. */
  lemma {:induction false} AddedFromBatch(rejects: seq<Row> -> bool, e: Embedder, chunks: seq<string>, k: nat, filename: string)
    requires k < NumBatches(|chunks|)
    ensures forall r :: r in Added(rejects, e, Batch(chunks, k), filename) ==>
      r.source == filename && r.content in chunks
  {
    var batch := Batch(chunks, k);
    var added := Added(rejects, e, batch, filename);
    forall r | r in added
      ensures r.source == filename && r.content in chunks
    {
      var j :| 0 <= j < |added| && added[j] == r;
      assert batch[j] == chunks[k * BATCH_SIZE + j];
    }
  }

  /** What indexing the extracted `text` reports: nothing for blank text, otherwise the chunk count and the batch log. */
  function TextOutcome(rejects: seq<Row> -> bool, e: Embedder, split: string -> seq<string>, text: string, filename: string): AddOutcome {
    if IsBlank(text) then NoText
    else
      var chunks := split(text);
      Finished(|chunks|, BatchLogs(rejects, e, chunks, NumBatches(|chunks|), filename, (|chunks| - 1) / BATCH_SIZE + 1))
  }

  /** The rows indexing the extracted `text` adds. */
  function TextRows(rejects: seq<Row> -> bool, e: Embedder, split: string -> seq<string>, text: string, filename: string): seq<Row> {
    if IsBlank(text) then []
    else
      var chunks := split(text);
      IndexedRows(rejects, e, chunks, NumBatches(|chunks|), filename)
  }

  // ---------------------------------------------------------------------
  // Search formatting
  // ---------------------------------------------------------------------

  /** The passage text handed back for one matched row. */
  function FormatHit(source: string, content: string): string {
    "[From " + source + "]:\n" + content
  }

  /** The source and the content can be read back out of a formatted hit. */
  lemma {:induction false} FormatHitParts(source: string, content: string)
    ensures var h := FormatHit(source, content);
      && |h| == |source| + |content| + 9
      && h[..6] == "[From "
      && h[6..6 + |source|] == source
      && h[6 + |source|..9 + |source|] == "]:\n"
      && h[9 + |source|..] == content
  {
  }

  /**
   * The text an f-string shows for `row.get("metadata", {}).get("source", "Unknown")`:
   * None where `.get` on a null metadata raises, "None" for a null source.
   */
  function SourceOf(m: Metadata): (r: Option<string>)
    ensures r.None? <==> m.NullMetadata?
    ensures m.NoMetadata? || (m.MetadataDict? && m.source.Absent?) ==> r == Some("Unknown")
    ensures m.MetadataDict? && m.source.JsonNull? ==> r == Some("None")
    ensures m.MetadataDict? && m.source.JsonString? ==> r == Some(m.source.s)
  {
    match m
    case NoMetadata => Some("Unknown")
    case NullMetadata => None
    case MetadataDict(src) =>
      match src
      case Absent => Some("Unknown")
      case JsonNull => Some("None")
      case JsonString(t) => Some(t)
  }

  /** The text an f-string shows for `row['content']`: None where the missing key raises, "None" for null. */
  function ContentOf(f: JsonField): (r: Option<string>)
    ensures r.None? <==> f.Absent?
    ensures f.JsonNull? ==> r == Some("None")
    ensures f.JsonString? ==> r == Some(f.s)
  {
    match f
    case Absent => None
    case JsonNull => Some("None")
    case JsonString(t) => Some(t)
  }

  /** The formatted passages of matched rows, or None if reading some row raises. */
  function Hits(rows: seq<MatchRow>): Option<seq<string>> {
    if rows == [] then Some([])
    else
      var init := Hits(rows[..|rows| - 1]);
      var last := rows[|rows| - 1];
      var src := SourceOf(last.metadata);
      var content := ContentOf(last.content);
      if init.None? || src.None? || content.None? then None
      else Some(init.value + [FormatHit(src.value, content.value)])
  }

  /** When no row is malformed there is one passage per row, in row order, each formatted from that row. */
  lemma {:induction false} HitsAt(rows: seq<MatchRow>)
    ensures var h := Hits(rows);
      h.Some? <==> forall j :: 0 <= j < |rows| ==> SourceOf(rows[j].metadata).Some? && ContentOf(rows[j].content).Some?
    ensures var h := Hits(rows);
      h.Some? ==> |h.value| == |rows| && forall j :: 0 <= j < |rows| ==>
        h.value[j] == FormatHit(SourceOf(rows[j].metadata).value, ContentOf(rows[j].content).value)
  {
    if rows != [] {
      var init := rows[..|rows| - 1];
      HitsAt(init);
      assert forall j :: 0 <= j < |init| ==> rows[j] == init[j];
    }
  }

  // ---------------------------------------------------------------------
  // The service
  // ---------------------------------------------------------------------

  class RagService {
    /** The Supabase client, null when the credentials are not set. */
    const client: DocumentStore?
    /** The embedding client, None when the API key is not set. */
    const embeddings: Option<Embedder>
    /** `RecursiveCharacterTextSplitter(chunk_size=1000, chunk_overlap=200).split_text`. */
    const split: string -> seq<string>

    constructor(client: DocumentStore?, embeddings: Option<Embedder>, split: string -> seq<string>)
      ensures this.client == client && this.embeddings == embeddings && this.split == split
    {
      this.client := client;
      this.embeddings := embeddings;
      this.split := split;
    }

    /** What `add_document` reports for `file`: why nothing was indexed, or the chunk count and one log line per batch. */
    function OutcomeOf(file: FileData): AddOutcome {
      if client == null || embeddings.None? then NotConfigured
      else TextOutcome(client.rejects, embeddings.value, split, Extracted(file), file.name)
    }

    /** The rows `add_document` appends to the table for `file`: none unless it gets past its guards. */
    function RowsAddedBy(file: FileData): seq<Row> {
      if client == null || embeddings.None? then []
      else TextRows(client.rejects, embeddings.value, split, Extracted(file), file.name)
    }

    /** Every row `add_document` adds names the file as its source and holds one of the file's chunks. */
    lemma {:induction false} RowsAddedFromFile(file: FileData)
      ensures forall r :: r in RowsAddedBy(file) ==>
        r.source == file.name && r.content in split(Extracted(file))
    {
      if client != null && embeddings.Some? && !IsBlank(Extracted(file)) {
        var chunks := split(Extracted(file));
        IndexedRowsFromChunks(client.rejects, embeddings.value, chunks, NumBatches(|chunks|), file.name);
      }
    }

    /**
     * The log of a finished run has one line per batch, numbered 1, 2, ... in
     * order, and every "indexed" line reports the number of batches as the total.
     */
    lemma {:induction false} OutcomeLog(file: FileData)
      ensures var o := OutcomeOf(file);
        o.Finished? ==>
          && |o.log| == NumBatches(o.chunkCount)
          && forall j :: 0 <= j < |o.log| ==> o.log[j].batch == j + 1 && (o.log[j].Indexed? ==> o.log[j].total == |o.log|)
    {
      var o := OutcomeOf(file);
      if o.Finished? {
        var chunks := split(Extracted(file));
        var n := NumBatches(|chunks|);
        ReportedTotal(|chunks|);
        BatchLogsAt(client.rejects, embeddings.value, chunks, n, file.name, (|chunks| - 1) / BATCH_SIZE + 1);
      }
    }

    /**
     * `add_document`: nothing is indexed without both clients or when the
     * extracted text is blank; otherwise every batch of chunks is attempted
     * in order, the rows of the batches that succeed are appended to the
     * table, and each batch leaves one log line.
     */
    method AddDocument(file: FileData) returns (outcome: AddOutcome)
      modifies client
      ensures outcome == OutcomeOf(file)
      ensures client != null ==> client.rows == old(client.rows) + RowsAddedBy(file)
    {
      if client == null || embeddings.None? {
        return NotConfigured;
      }
      var content := ExtractText(file);
      outcome := IndexText(client, embeddings.value, split, content, file.name);
    }

    /** The part of `add_document` after extraction: the blank-text guard, splitting, and the batch loop. */
    static method IndexText(store: DocumentStore, e: Embedder, split: string -> seq<string>, content: string, filename: string)
      returns (outcome: AddOutcome)
      modifies store
      ensures outcome == TextOutcome(store.rejects, e, split, content, filename)
      ensures store.rows == old(store.rows) + TextRows(store.rejects, e, split, content, filename)
    {
      TrimEmpty(content);
      if Trim(content) == "" {
        return NoText;
      }
      var chunks := split(content);
      var log := IndexChunks(store, e, chunks, filename);
      outcome := Finished(|chunks|, log);
    }

    /** The batch loop of `add_document`: every batch of 100 chunks is attempted in order. */
    static method IndexChunks(store: DocumentStore, e: Embedder, chunks: seq<string>, filename: string)
      returns (log: seq<BatchLog>)
      modifies store
      ensures log == BatchLogs(store.rejects, e, chunks, NumBatches(|chunks|), filename, (|chunks| - 1) / BATCH_SIZE + 1)
      ensures store.rows == old(store.rows) + IndexedRows(store.rejects, e, chunks, NumBatches(|chunks|), filename)
    {
      var total := |chunks|;
      var reported := (total - 1) / BATCH_SIZE + 1;
      log := [];
      var k := 0;
      while k < NumBatches(total)
        invariant k <= NumBatches(total)
        invariant log == BatchLogs(store.rejects, e, chunks, k, filename, reported)
        invariant store.rows == old(store.rows) + IndexedRows(store.rejects, e, chunks, k, filename)
      {
        var batch := Batch(chunks, k);
        IndexedRowsNext(store.rejects, e, chunks, k, filename, old(store.rows));
        var line := IndexBatch(store, e, batch, k + 1, filename, reported);
        log := log + [line];
        k := k + 1;
      }
    }

    /** One iteration of the batch loop: embed the batch, insert its rows, and report how it went. */
    static method IndexBatch(store: DocumentStore, e: Embedder, batch: seq<string>, number: nat, filename: string, total: int)
      returns (line: BatchLog)
      modifies store
      ensures line == LogLine(store.rejects, e, batch, filename, number, total)
      ensures store.rows == old(store.rows) + Added(store.rejects, e, batch, filename)
    {
      var vectors := e.embedDocuments(batch);
      if vectors.None? {
        line := Failed(number);
      } else {
        var data := RowsOf(batch, vectors.value, filename);
        var ok := store.Insert(data);
        if ok {
          line := Indexed(number, total);
        } else {
          line := Failed(number);
        }
      }
    }

    /** What `search` returns for a query. */
    function SearchResult(query: string, limit: int): seq<string> {
      if client == null || embeddings.None? then []
      else
        var vector := embeddings.value.embedQuery(query);
        if vector.None? then []
        else
          var result := client.matchDocuments(vector.value, limit);
          if result.RpcError? then []
          else
            var rows := if result.data.Some? then result.data.value else [];
            var hits := Hits(rows);
            if hits.Some? then hits.value else []
    }

    /**
     * `search`: the formatted passages of the matched rows, in the order the
     * table returns them; `[]` when unconfigured or on any error.
     */
    method Search(query: string, limit: int) returns (docs: seq<string>)
      ensures docs == SearchResult(query, limit)
    {
      if client == null || embeddings.None? {
        return [];
      }
      var vector := embeddings.value.embedQuery(query);
      if vector.None? {
        return [];
      }
      var result := client.matchDocuments(vector.value, limit);
      if result.RpcError? {
        return [];
      }
      var rows := if result.data.Some? then result.data.value else [];
      docs := [];
      var i := 0;
      while i < |rows|
        invariant 0 <= i <= |rows|
        invariant Hits(rows[..i]) == Some(docs)
      {
        assert rows[..i + 1][..i] == rows[..i];
        var source := SourceOf(rows[i].metadata);
        var content := ContentOf(rows[i].content);
        if source.None? || content.None? {
          assert Hits(rows[..i + 1]).None?;
          HitsNoneExtends(rows, i + 1);
          return [];
        }
        docs := docs + [FormatHit(source.value, content.value)];
        i := i + 1;
      }
      assert rows[..i] == rows;
    }

    /** `search(query)` without a limit: at most three matches are asked for. */
    method SearchDefault(query: string) returns (docs: seq<string>)
      ensures docs == SearchResult(query, DEFAULT_LIMIT)
    {
      docs := Search(query, DEFAULT_LIMIT);
    }
  }

  /** Once a prefix of the rows is malformed, so is the whole list. */
  lemma {:induction false} HitsNoneExtends(rows: seq<MatchRow>, k: nat)
    requires k <= |rows| && Hits(rows[..k]).None?
    ensures Hits(rows).None?
    decreases |rows| - k
  {
    if k < |rows| {
      assert rows[..k + 1][..k] == rows[..k];
      HitsNoneExtends(rows, k + 1);
    } else {
      assert rows[..k] == rows;
    }
  }
}
