/**
 * Chunking and indexing bookkeeping of src/memory/retrieval.py: text is cut
 * into fixed windows of 1500 characters, each window is whitespace-stripped,
 * and every chunk becomes one record appended to a memory.
 *
 * A memory is modelled by the sequence of records appended to it; readable
 * files are the map `files` from path to contents.
 */
module Retrieval {
  import opened Wrappers
  import opened Values
  import opened Walk

  /** The window width of both chunkers. */
  const ChunkSize: nat := 1500

  function Min(a: int, b: int): int {
    if a <= b then a else b
  }

  /** The characters Python's `str.strip()` removes (those for which `str.isspace()` holds). */
  predicate IsSpace(c: char) {
    || ('\t' <= c <= '\r')
    || ('\U{1C}' <= c <= '\U{1F}')
    || c == ' ' || c == '\U{85}' || c == '\U{A0}' || c == '\U{1680}'
    || ('\U{2000}' <= c <= '\U{200A}')
    || c == '\U{2028}' || c == '\U{2029}' || c == '\U{202F}' || c == '\U{205F}' || c == '\U{3000}'
  }

  /** `s` with its leading whitespace removed. */
  function TrimStart(s: string): string
    decreases |s|
  {
    if s != [] && IsSpace(s[0]) then TrimStart(s[1..]) else s
  }

  /** `s` with its trailing whitespace removed. */
  function TrimEnd(s: string): string
    decreases |s|
  {
    if s != [] && IsSpace(s[|s| - 1]) then TrimEnd(s[..|s| - 1]) else s
  }

  /** `TrimStart(s)` is the suffix of `s` after its leading whitespace, and starts with a non-space. */
  lemma {:induction false} TrimStartIsSuffix(s: string)
    ensures |TrimStart(s)| <= |s| && TrimStart(s) == s[|s| - |TrimStart(s)|..]
    ensures forall k :: 0 <= k < |s| - |TrimStart(s)| ==> IsSpace(s[k])
    ensures TrimStart(s) == [] || !IsSpace(TrimStart(s)[0])
    decreases |s|
  {
    if s != [] && IsSpace(s[0]) {
      TrimStartIsSuffix(s[1..]);
      forall k | 1 <= k < |s| - |TrimStart(s)|
        ensures IsSpace(s[k])
      {
        assert s[1..][k - 1] == s[k];
      }
    }
  }

  /** `TrimEnd(s)` is the prefix of `s` before its trailing whitespace, and ends with a non-space. */
  lemma {:induction false} TrimEndIsPrefix(s: string)
    ensures |TrimEnd(s)| <= |s| && TrimEnd(s) == s[..|TrimEnd(s)|]
    ensures forall k :: |TrimEnd(s)| <= k < |s| ==> IsSpace(s[k])
    ensures TrimEnd(s) == [] || !IsSpace(TrimEnd(s)[|TrimEnd(s)| - 1])
    decreases |s|
  {
    if s != [] && IsSpace(s[|s| - 1]) {
      TrimEndIsPrefix(s[..|s| - 1]);
      forall k | |TrimEnd(s)| <= k < |s| - 1
        ensures IsSpace(s[k])
      {
        assert s[..|s| - 1][k] == s[k];
      }
    }
  }

  /** Where `Strip(s)` starts in `s`: the length of the leading whitespace. */
  function StripOffset(s: string): int {
    |s| - |TrimStart(s)|
  }

  /** `str.strip()`. */
  function Strip(s: string): string {
    TrimEnd(TrimStart(s))
  }

  /** `Strip(s)` is the slice of `s` starting at `StripOffset(s)`. */
  lemma StripIsSlice(s: string)
    ensures 0 <= StripOffset(s) && StripOffset(s) + |Strip(s)| <= |s|
    ensures Strip(s) == s[StripOffset(s) .. StripOffset(s) + |Strip(s)|]
  {
    var t := TrimStart(s);
    TrimStartIsSuffix(s);
    TrimEndIsPrefix(t);
    var i := StripOffset(s);
    var r := TrimEnd(t);
    assert t == s[i..];
    assert r == s[i..][..|r|];
  }

  /**
   * `Strip(s)` is the slice of `s` left after cutting off leading and trailing
   * whitespace: only whitespace is cut, and the slice neither starts nor ends
   * with whitespace.
   */
  lemma StripIsTrimmedSlice(s: string)
    ensures 0 <= StripOffset(s) && StripOffset(s) + |Strip(s)| <= |s|
    ensures Strip(s) == s[StripOffset(s) .. StripOffset(s) + |Strip(s)|]
    ensures forall k :: 0 <= k < StripOffset(s) ==> IsSpace(s[k])
    ensures forall k :: StripOffset(s) + |Strip(s)| <= k < |s| ==> IsSpace(s[k])
    ensures Strip(s) == [] || (!IsSpace(Strip(s)[0]) && !IsSpace(Strip(s)[|Strip(s)| - 1]))
  {
    var t := TrimStart(s);
    StripIsSlice(s);
    TrimStartIsSuffix(s);
    TrimEndIsPrefix(t);
    var r := TrimEnd(t);
    var i := StripOffset(s);
    forall k | i + |r| <= k < |s|
      ensures IsSpace(s[k])
    {
      assert s[k] == t[k - i];
    }
    if r != [] {
      assert r[0] == t[0];
    }
  }

  /** Stripping never lengthens a text. */
  lemma StripShorter(s: string)
    ensures |Strip(s)| <= |s|
  {
    StripIsTrimmedSlice(s);
  }

  /** The number of windows: the ceiling of `n / 1500`. */
  function ChunkCount(n: nat): nat {
    (n + ChunkSize - 1) / ChunkSize
  }

  /** The window that chunk `k` is cut from. */
  function Window(content: string, k: nat): string
    requires k * ChunkSize < |content|
  {
    content[k * ChunkSize .. Min((k + 1) * ChunkSize, |content|)]
  }

  /** The unstripped windows, taken from the front of the text. */
  function Pieces(content: string): seq<string>
    decreases |content|
  {
    if content == [] then []
    else
      var n := Min(ChunkSize, |content|);
      [content[..n]] + Pieces(content[n..])
  }

  /** The chunker's result: each window, stripped. */
  function Chunks(content: string): seq<string> {
    var ps := Pieces(content);
    seq(|ps|, k requires 0 <= k < |ps| => Strip(ps[k]))
  }

  function Concat(ss: seq<string>): string
    decreases |ss|
  {
    if ss == [] then [] else ss[0] + Concat(ss[1..])
  }

  /** `ChunkCount` is the ceiling: the windows cover the text and the last one is not empty. */
  lemma ChunkCountIsCeiling(n: nat)
    ensures n <= ChunkCount(n) * ChunkSize < n + ChunkSize
    ensures ChunkCount(n) == 0 <==> n == 0
  {
  }

  /** The only count of windows that covers `n` characters with a non-empty last window. */
  lemma ChunkCountUnique(n: nat, c: nat)
    requires n <= c * ChunkSize
    requires c == 0 || (c - 1) * ChunkSize < n
    ensures c == ChunkCount(n)
  {
    ChunkCountIsCeiling(n);
  }

  /** Window `k` of the text is window `k - 1` of what follows the first window. */
  lemma WindowShift(content: string, k: nat)
    requires ChunkSize < |content| && 1 <= k && (k - 1) * ChunkSize < |content| - ChunkSize
    ensures k * ChunkSize < |content| && Window(content[ChunkSize..], k - 1) == Window(content, k)
  {
    var rest := content[ChunkSize..];
    var lo := (k - 1) * ChunkSize;
    var hi := Min(k * ChunkSize, |rest|);
    assert lo + ChunkSize == k * ChunkSize;
    assert hi + ChunkSize == Min((k + 1) * ChunkSize, |content|);
    assert Window(rest, k - 1) == rest[lo..hi];
    assert Window(content, k) == content[lo + ChunkSize .. hi + ChunkSize];
    forall j | 0 <= j < hi - lo
      ensures rest[lo..hi][j] == content[lo + ChunkSize .. hi + ChunkSize][j]
    {
      assert rest[lo..hi][j] == rest[lo + j] == content[ChunkSize + lo + j];
    }
  }

  /** The pieces are the windows at offsets 0, 1500, 3000, ..., in increasing order. */
  lemma {:induction false} PiecesAt(content: string)
    ensures |Pieces(content)| == ChunkCount(|content|)
    ensures forall k :: 0 <= k < |Pieces(content)| ==>
      k * ChunkSize < |content| && Pieces(content)[k] == Window(content, k)
    decreases |content|
  {
    if content != [] {
      var n := Min(ChunkSize, |content|);
      var rest := content[n..];
      PiecesAt(rest);
      var ps := Pieces(content);
      if n == |content| {
        assert rest == [];
      } else {
        assert n == ChunkSize;
        assert ChunkCount(|content|) == ChunkCount(|rest|) + 1;
        forall k | 1 <= k < |ps|
          ensures k * ChunkSize < |content| && ps[k] == Window(content, k)
        {
          assert ps[k] == Pieces(rest)[k - 1];
          WindowShift(content, k);
        }
      }
    }
  }

  /** Joining the unstripped pieces gives the text back: every character lies in exactly one window. */
  lemma {:induction false} PiecesConcat(content: string)
    ensures Concat(Pieces(content)) == content
    decreases |content|
  {
    if content != [] {
      var n := Min(ChunkSize, |content|);
      PiecesConcat(content[n..]);
      assert content == content[..n] + content[n..];
    }
  }

  /** Properties of the chunk list that the source's chunkers promise. */
  lemma ChunksShape(content: string)
    ensures |Chunks(content)| == ChunkCount(|content|)
    ensures Chunks(content) == [] <==> content == []
    ensures forall k :: 0 <= k < |Chunks(content)| ==>
      k * ChunkSize < |content| && Chunks(content)[k] == Strip(Window(content, k)) && |Chunks(content)[k]| <= ChunkSize
  {
    PiecesAt(content);
    forall k | 0 <= k < |Chunks(content)|
      ensures |Chunks(content)[k]| <= ChunkSize
    {
      StripShorter(Window(content, k));
    }
  }

  /** `Chunks` is the only list with one chunk per window, chunk `k` being the stripped window `k`. */
  lemma ChunksCharacterised(content: string, chunks: seq<string>)
    requires |chunks| == ChunkCount(|content|)
    requires forall k :: 0 <= k < |chunks| ==> k * ChunkSize < |content| && chunks[k] == Strip(Window(content, k))
    ensures chunks == Chunks(content)
  {
    ChunksShape(content);
    assert forall k :: 0 <= k < |chunks| ==> chunks[k] == Chunks(content)[k];
  }

  /**
   * `RAGMemory._chunk_content` and the chunking half of `DocumentIndexer._chunk_file`
   * (the two loops are identical): slices of 1500 characters stepping from 0, stripped.
   */
  method ChunkContent(content: string) returns (chunks: seq<string>)
    ensures chunks == Chunks(content)
    ensures |chunks| == ChunkCount(|content|)
    ensures forall k :: 0 <= k < |chunks| ==>
      k * ChunkSize < |content| && chunks[k] == Strip(Window(content, k)) && |chunks[k]| <= ChunkSize
  {
    chunks := [];
    var i := 0;
    while i < |content|
      invariant i == |chunks| * ChunkSize
      invariant |chunks| == 0 || (|chunks| - 1) * ChunkSize < |content|
      invariant forall k :: 0 <= k < |chunks| ==> k * ChunkSize < |content| && chunks[k] == Strip(Window(content, k))
    {
      var chunk := content[i .. Min(i + ChunkSize, |content|)];
      assert chunk == Window(content, |chunks|);
      chunks := chunks + [Strip(chunk)];
      i := i + ChunkSize;
    }
    ChunkCountUnique(|content|, |chunks|);
    ChunksCharacterised(content, chunks);
    ChunksShape(content);
  }

  /** `MemoryMimeType.TEXT`, the only MIME type the core uses. */
  datatype MimeType = TextMime

  /** The metadata `{"source": ..., "chunk_index": ...}` of an indexed chunk. */
  datatype ChunkMetadata = ChunkMetadata(source: string, chunkIndex: nat)

  /** `MemoryContent(content, mime_type, metadata)`. */
  datatype MemoryContent = MemoryContent(content: string, mimeType: MimeType, metadata: Option<ChunkMetadata>)

  /** The records that indexing the chunks of `source` appends. */
  function ChunkRecords(source: string, chunks: seq<string>): seq<MemoryContent>
    decreases |chunks|
  {
    if chunks == [] then []
    else ChunkRecords(source, chunks[..|chunks| - 1])
         + [MemoryContent(chunks[|chunks| - 1], TextMime, Some(ChunkMetadata(source, |chunks| - 1)))]
  }

  /** One record per chunk, in order, tagged with the source path and the chunk's position. */
  lemma {:induction false} ChunkRecordsAt(source: string, chunks: seq<string>)
    ensures |ChunkRecords(source, chunks)| == |chunks|
    ensures forall i :: 0 <= i < |chunks| ==>
      ChunkRecords(source, chunks)[i] == MemoryContent(chunks[i], TextMime, Some(ChunkMetadata(source, i)))
    decreases |chunks|
  {
    if chunks != [] {
      var init := chunks[..|chunks| - 1];
      ChunkRecordsAt(source, init);
      forall i | 0 <= i < |chunks| - 1
        ensures ChunkRecords(source, chunks)[i] == MemoryContent(chunks[i], TextMime, Some(ChunkMetadata(source, i)))
      {
        assert init[i] == chunks[i];
      }
    }
  }

  /** How many leading sources can be opened. */
  function ReadablePrefix(sources: seq<string>, files: map<string, string>): (n: nat)
    ensures n <= |sources|
    ensures forall j :: 0 <= j < n ==> sources[j] in files
    ensures n < |sources| ==> sources[n] !in files
    decreases |sources|
  {
    if sources == [] || sources[0] !in files then 0
    else 1 + ReadablePrefix(sources[1..], files)
  }

  /**
   * The records appended by indexing every source of `sources`, one after
   * another. It is applied only to sources that can all be opened (a prefix of
   * `ReadablePrefix` sources), so the unreadable case never contributes.
   */
  function Indexed(sources: seq<string>, files: map<string, string>): seq<MemoryContent>
    decreases |sources|
  {
    if sources == [] then []
    else
      var last := sources[|sources| - 1];
      Indexed(sources[..|sources| - 1], files) + (if last in files then ChunkRecords(last, Chunks(files[last])) else [])
  }

  /** The sum of the per-source chunk counts, over sources that can all be opened. */
  function TotalChunks(sources: seq<string>, files: map<string, string>): nat
    decreases |sources|
  {
    if sources == [] then 0
    else
      var last := sources[|sources| - 1];
      TotalChunks(sources[..|sources| - 1], files) + (if last in files then |Chunks(files[last])| else 0)
  }

  /** The loop of `index_documents` stops exactly at the first missing file. */
  lemma ReadableStopsAt(sources: seq<string>, files: map<string, string>, i: nat)
    requires i <= ReadablePrefix(sources, files) && i < |sources| && sources[i] !in files
    ensures ReadablePrefix(sources, files) == i
  {
  }

  /** Indexing one more readable source appends its chunk records and adds its chunk count. */
  lemma IndexedStep(sources: seq<string>, files: map<string, string>, i: nat)
    requires i < |sources| && sources[i] in files
    ensures Indexed(sources[..i + 1], files)
         == Indexed(sources[..i], files) + ChunkRecords(sources[i], Chunks(files[sources[i]]))
    ensures TotalChunks(sources[..i + 1], files) == TotalChunks(sources[..i], files) + |Chunks(files[sources[i]])|
  {
    assert sources[..i + 1][..i] == sources[..i];
  }

  /** The total that `index_documents` counts is the number of records it appends. */
  lemma {:induction false} TotalChunksCountsRecords(sources: seq<string>, files: map<string, string>)
    ensures |Indexed(sources, files)| == TotalChunks(sources, files)
    decreases |sources|
  {
    if sources != [] {
      var last := sources[|sources| - 1];
      TotalChunksCountsRecords(sources[..|sources| - 1], files);
      if last in files {
        ChunkRecordsAt(last, Chunks(files[last]));
      }
    }
  }

  /** `DocumentIndexer`: indexes files into a memory, modelled by the records it holds. */
  class DocumentIndexer {
    /** The records of the wrapped memory, oldest first. */
    var records: seq<MemoryContent>

    constructor (initial: seq<MemoryContent>)
      ensures records == initial
    {
      records := initial;
    }

    /** `_chunk_file`: read the file, then chunk it as `ChunkContent` does. */
    static method ChunkFile(source: string, files: map<string, string>) returns (r: Result<seq<string>, Exception>)
      ensures source in files <==> r.Success?
      ensures r.Success? ==> r.value == Chunks(files[source])
      ensures r.Failure? ==> r.error == FileNotFoundError(source)
    {
      if source !in files {
        return Failure(FileNotFoundError(source));
      }
      var chunks := ChunkContent(files[source]);
      r := Success(chunks);
    }

    /** `index_document`: one record per chunk, in order, with source and chunk index. */
    method IndexDocument(source: string, files: map<string, string>) returns (r: Result<seq<string>, Exception>)
      modifies this
      ensures source in files <==> r.Success?
      ensures r.Failure? ==> r.error == FileNotFoundError(source) && records == old(records)
      ensures r.Success? ==>
        r.value == Chunks(files[source]) && records == old(records) + ChunkRecords(source, r.value)
    {
      r := ChunkFile(source, files);
      if r.Failure? {
        return;
      }
      var chunks := r.value;
      var i := 0;
      while i < |chunks|
        invariant 0 <= i <= |chunks|
        invariant records == old(records) + ChunkRecords(source, chunks[..i])
      {
        assert chunks[..i + 1][..i] == chunks[..i];
        records := records + [MemoryContent(chunks[i], TextMime, Some(ChunkMetadata(source, i)))];
        i := i + 1;
      }
      assert chunks[..i] == chunks;
    }

    /** One turn of the loop of `index_documents`: index source `i` after those before it. */
    method IndexNext(sources: seq<string>, files: map<string, string>, i: nat, ghost start: seq<MemoryContent>)
      returns (r: Result<seq<string>, Exception>)
      requires i < |sources| && records == start + Indexed(sources[..i], files)
      modifies this
      ensures r.Success? <==> sources[i] in files
      ensures r.Failure? ==> r.error == FileNotFoundError(sources[i]) && records == old(records)
      ensures r.Success? ==>
        && records == start + Indexed(sources[..i + 1], files)
        && TotalChunks(sources[..i + 1], files) == TotalChunks(sources[..i], files) + |r.value|
    {
      r := IndexDocument(sources[i], files);
      if r.Success? {
        IndexedStep(sources, files, i);
      }
    }

    /**
     * `index_documents`: index each source in turn and count the chunks. An
     * unreadable source raises, leaving the records of the sources before it.
     */
    method IndexDocuments(sources: seq<string>, files: map<string, string>) returns (r: Result<nat, Exception>)
      modifies this
      ensures r.Success? <==> ReadablePrefix(sources, files) == |sources|
      ensures records == old(records) + Indexed(sources[..ReadablePrefix(sources, files)], files)
      ensures r.Success? ==> r.value == TotalChunks(sources, files)
      ensures r.Failure? ==> r.error == FileNotFoundError(sources[ReadablePrefix(sources, files)])
    {
      ghost var n := ReadablePrefix(sources, files);
      var total := 0;
      var i := 0;
      while i < |sources|
        invariant 0 <= i <= n
        invariant records == old(records) + Indexed(sources[..i], files)
        invariant total == TotalChunks(sources[..i], files)
      {
        var chunks := IndexNext(sources, files, i, old(records));
        if chunks.Failure? {
          ReadableStopsAt(sources, files, i);
          return Failure(chunks.error);
        }
        total := total + |chunks.value|;
        i := i + 1;
      }
      assert n == |sources|;
      assert sources[..i] == sources;
      r := Success(total);
    }

    /**
     * `DocumentIndexer._index_directory` as written: it collects the walked
     * paths and then calls `self._index_documents`, a method `DocumentIndexer`
     * does not define (it has `index_documents`), so the call raises
     * AttributeError before any record is added.
     */
    method IndexDirectory(directory: string, walk: string -> seq<WalkStep>, join: (string, string) -> string)
      returns (r: Result<nat, Exception>)
      ensures r == Failure(AttributeError)
    {
      var sources := CollectPaths(walk(directory), join);
      r := Failure(AttributeError);
    }

    /**
     * `_index_directory` as evidently intended: index every file the walk
     * lists, in walk order, through `index_documents`.
     */
    method IndexDirectoryIntended(directory: string, walk: string -> seq<WalkStep>, join: (string, string) -> string,
                                  files: map<string, string>)
      returns (r: Result<nat, Exception>)
      modifies this
      ensures var sources := Paths(walk(directory), join);
        var n := ReadablePrefix(sources, files);
        && (r.Success? <==> n == |sources|)
        && records == old(records) + Indexed(sources[..n], files)
        && (r.Success? ==> r.value == TotalChunks(sources, files))
        && (r.Failure? ==> r.error == FileNotFoundError(sources[n]))
    {
      var sources := CollectPaths(walk(directory), join);
      r := IndexDocuments(sources, files);
    }
  }

  /**
   * A directory holding one readable file: the intended `_index_directory`
   * reads every walked path and adds one record, while the code as written
   * raises AttributeError and adds none.
   */
  lemma DirectoryIndexingDiffers()
    ensures var sources := Paths([WalkStep("d", ["a.txt"])], (root: string, name: string) => root + "/" + name);
      var files := map["d/a.txt" := "hello"];
      && sources == ["d/a.txt"]
      && ReadablePrefix(sources, files) == |sources|
      && |Indexed(sources, files)| == 1
  {
    var join := (root: string, name: string) => root + "/" + name;
    var steps := [WalkStep("d", ["a.txt"])];
    JoinedAt("d", ["a.txt"], join);
    assert steps[..0] == [];
    assert join("d", "a.txt") == "d/a.txt";
    var sources := Paths(steps, join);
    assert sources == Paths([], join) + Joined("d", ["a.txt"], join);
    assert sources == ["d/a.txt"];
    ChunksShape("hello");
    ChunkRecordsAt("d/a.txt", Chunks("hello"));
    assert sources[..0] == [];
  }

  /** The records `ChatMemory.add` appends for the given strings. */
  function TextRecords(content: seq<string>): seq<MemoryContent>
    decreases |content|
  {
    if content == [] then []
    else TextRecords(content[..|content| - 1]) + [MemoryContent(content[|content| - 1], TextMime, None)]
  }

  /** One TEXT record without metadata per string, in input order. */
  lemma {:induction false} TextRecordsAt(content: seq<string>)
    ensures |TextRecords(content)| == |content|
    ensures forall i :: 0 <= i < |content| ==> TextRecords(content)[i] == MemoryContent(content[i], TextMime, None)
    decreases |content|
  {
    if content != [] {
      var init := content[..|content| - 1];
      TextRecordsAt(init);
      forall i | 0 <= i < |content| - 1
        ensures TextRecords(content)[i] == MemoryContent(content[i], TextMime, None)
      {
        assert init[i] == content[i];
      }
    }
  }

  /** Adding `a` and then `b` appends the same records as adding `a + b` at once. */
  lemma {:induction false} TextRecordsAppend(a: seq<string>, b: seq<string>)
    ensures TextRecords(a + b) == TextRecords(a) + TextRecords(b)
    decreases |b|
  {
    if b == [] {
      assert a + b == a;
    } else {
      var binit := b[..|b| - 1];
      TextRecordsAppend(a, binit);
      assert (a + b)[..|a + b| - 1] == a + binit;
    }
  }

  /** `ChatMemory`: a list memory whose `add` takes plain strings. */
  class ChatMemory {
    /** The list memory's contents, oldest first. */
    var contents: seq<MemoryContent>

    constructor (initial: seq<MemoryContent>)
      ensures contents == initial
    {
      contents := initial;
    }

    /** `add`: append one TEXT record per string, in order, and nothing else. */
    method Add(content: seq<string>)
      modifies this
      ensures contents == old(contents) + TextRecords(content)
    {
      var i := 0;
      while i < |content|
        invariant 0 <= i <= |content|
        invariant contents == old(contents) + TextRecords(content[..i])
      {
        assert content[..i + 1][..i] == content[..i];
        contents := contents + [MemoryContent(content[i], TextMime, None)];
        i := i + 1;
      }
      assert content[..i] == content;
    }
  }

  /** What a successful `RAGMemory.populate` goes on to do. */
  datatype IndexRequest = IndexDirectory(directory: string) | IndexFiles(files: seq<string>)

  /** `RAGMemory.populate`: exactly one of `directory` and `files` must be given. */
  function Populate(directory: Option<string>, files: Option<seq<string>>): (r: Result<IndexRequest, Exception>)
    ensures r.Success? <==> (directory.Some? != files.Some?)
    ensures directory.Some? && files.Some? ==> r == Failure(ValueError(BothDirectoryAndFiles))
    ensures directory.None? && files.None? ==> r == Failure(ValueError(NeitherDirectoryNorFiles))
    ensures r.Success? && r.value.IndexFiles? ==> files == Some(r.value.files)
    ensures r.Success? && r.value.IndexDirectory? ==> directory == Some(r.value.directory)
  {
    if directory.Some? && files.Some? then Failure(ValueError(BothDirectoryAndFiles))
    else if directory.Some? then Success(IndexDirectory(directory.value))
    else if files.Some? then Success(IndexFiles(files.value))
    else Failure(ValueError(NeitherDirectoryNorFiles))
  }
}
