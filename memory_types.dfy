/**
 * `BaseMemoryType` of hive/hive/memory.py: a named memory whose configuration
 * entry is loaded before its backing store is generated, and which indexes
 * content, files or a directory into that store through `load_with_langchain`.
 *
 * The store-building hook `generate_with_autogen` is the parameter `generate`;
 * the calls made to the hook `load_with_langchain` are recorded in `loads`.
 * `os.path.isdir`, `os.path.isfile`, `os.walk` and `os.path.join` are the
 * parameters `isDir`, `isFile`, `walk` and `join`. The files that exist are the
 * keys of the map `files`, which gives a text file's contents.
 */
module MemoryTypes {
  import opened Wrappers
  import opened Values
  import opened Walk

  /** One element of a list handed to `load_with_langchain`. */
  datatype LoadItem =
    | TextContent(text: string)   // a string: configured content, or a text file's contents
    | PdfPages(path: string)      // the pages `PyPDFLoader(path).load()` returns

  /** What `index_from_source` goes on to do once its checks pass. */
  datatype IndexPlan =
    | IndexDirectory(directory: Value)       // `_index_directory(source)`
    | IndexDocuments(sources: seq<Value>)    // `_index_documents(source)`
    | LoadContent(content: seq<string>)      // `load_with_langchain(source)`

  /** `_load_config`: the entry named `name`, which must be present. */
  function LoadConfig(name: string, config: map<string, Value>): (r: Result<Value, Exception>)
    ensures r.Success? <==> name in config
    ensures r.Success? ==> r.value == config[name]
    ensures r.Failure? ==> r.error == ValueError(MemoryNotFound(name))
  {
    if name in config then Success(config[name]) else Failure(ValueError(MemoryNotFound(name)))
  }

  /** What `for file in source` iterates: a list's items, or a string's characters. */
  function Iterate(source: Value): Result<seq<Value>, Exception> {
    match source
    case List(items) => Success(items)
    case Str(s) => Success(seq(|s|, i requires 0 <= i < |s| => Str([s[i]])))
    case _ => Failure(TypeError)
  }

  predicate AllStrings(items: seq<Value>) {
    forall i :: 0 <= i < |items| ==> items[i].Str?
  }

  function Strings(items: seq<Value>): seq<string>
    requires AllStrings(items)
  {
    seq(|items|, i requires 0 <= i < |items| => items[i].s)
  }

  /** The checks and the dispatch of `index_from_source`, given the memory's configuration entry. */
  function SourcePlan(name: string, config: Value, content: Value, isDir: Value -> bool, isFile: Value -> bool)
    : Result<IndexPlan, Exception>
  {
    match Get(config, "source_type", Str("content"))
    case Failure(e) => Failure(e)
    case Success(sourceType) =>
      match Get(config, "source", content)
      case Failure(e) => Failure(e)
      case Success(source) =>
        if source == Null then Failure(ValueError(SourceNotFound(name)))
        else if sourceType == Str("directory") then
          if !isDir(source) then Failure(ValueError(DirectoryMissing(source)))
          else Success(IndexDirectory(source))
        else if sourceType == Str("files") then
          match Iterate(source)
          case Failure(e) => Failure(e)
          case Success(paths) =>
            if !(forall i :: 0 <= i < |paths| ==> isFile(paths[i])) then Failure(ValueError(FilesMissing(source)))
            else Success(IndexDocuments(paths))
        else if sourceType == Str("content") then
          if !source.List? then Failure(ValueError(ContentNotStrings))
          else if !AllStrings(source.items) then Failure(ValueError(ContentNotStrings))
          else Success(LoadContent(Strings(source.items)))
        else Failure(ValueError(InvalidSourceType(sourceType)))
  }

  /** Without a configured `source_type`, the source is treated as content. */
  lemma SourceTypeDefaultsToContent(name: string, entries: map<string, Value>, content: Value,
                                    isDir: Value -> bool, isFile: Value -> bool)
    requires "source_type" !in entries
    ensures SourcePlan(name, Mapping(entries), content, isDir, isFile)
         == SourcePlan(name, Mapping(entries["source_type" := Str("content")]), content, isDir, isFile)
  {
  }

  /** A configured `source` takes precedence: the `content` argument is then ignored. */
  lemma ConfiguredSourceWins(name: string, entries: map<string, Value>, content1: Value, content2: Value,
                             isDir: Value -> bool, isFile: Value -> bool)
    requires "source" in entries
    ensures SourcePlan(name, Mapping(entries), content1, isDir, isFile)
         == SourcePlan(name, Mapping(entries), content2, isDir, isFile)
  {
  }

  /**
   * A source that is `None`, because none is configured and none is passed or
   * because the configuration says `source: null`, fails whatever the source type.
   */
  lemma MissingSourceFails(name: string, entries: map<string, Value>, content: Value,
                           isDir: Value -> bool, isFile: Value -> bool)
    requires if "source" in entries then entries["source"] == Null else content == Null
    ensures SourcePlan(name, Mapping(entries), content, isDir, isFile) == Failure(ValueError(SourceNotFound(name)))
  {
  }

  /** A content source is loaded as it is exactly when it is a list of strings. */
  lemma ContentPlan(name: string, entries: map<string, Value>, content: Value,
                    isDir: Value -> bool, isFile: Value -> bool)
    requires Get(Mapping(entries), "source_type", Str("content")) == Success(Str("content"))
    ensures var source := Get(Mapping(entries), "source", content).value;
      var r := SourcePlan(name, Mapping(entries), content, isDir, isFile);
      && (source != Null && !(source.List? && AllStrings(source.items)) ==> r == Failure(ValueError(ContentNotStrings)))
      && (source.List? && AllStrings(source.items) ==>
            r == Success(LoadContent(Strings(source.items)))
            && |Strings(source.items)| == |source.items|
            && forall i :: 0 <= i < |source.items| ==> source.items[i] == Str(Strings(source.items)[i]))
  {
  }

  /** A files source is indexed exactly when every path exists; one missing path fails it. */
  lemma FilesPlan(name: string, entries: map<string, Value>, paths: seq<Value>,
                  isDir: Value -> bool, isFile: Value -> bool)
    requires entries.Keys >= {"source_type", "source"}
    requires entries["source_type"] == Str("files") && entries["source"] == List(paths)
    ensures var r := SourcePlan(name, Mapping(entries), Null, isDir, isFile);
      && ((exists i :: 0 <= i < |paths| && !isFile(paths[i])) ==> r == Failure(ValueError(FilesMissing(List(paths)))))
      && ((forall i :: 0 <= i < |paths| ==> isFile(paths[i])) ==> r == Success(IndexDocuments(paths)))
  {
  }

  /** A directory source is indexed exactly when it is a directory. */
  lemma DirectoryPlan(name: string, entries: map<string, Value>, isDir: Value -> bool, isFile: Value -> bool)
    requires entries.Keys >= {"source_type", "source"}
    requires entries["source_type"] == Str("directory") && entries["source"] != Null
    ensures var src := entries["source"];
      SourcePlan(name, Mapping(entries), Null, isDir, isFile)
        == if isDir(src) then Success(IndexDirectory(src)) else Failure(ValueError(DirectoryMissing(src)))
  {
  }

  /** Any other source type is rejected. */
  lemma UnknownSourceTypeFails(name: string, entries: map<string, Value>, content: Value,
                               isDir: Value -> bool, isFile: Value -> bool)
    requires "source_type" in entries
    requires entries["source_type"] !in {Str("directory"), Str("files"), Str("content")}
    requires Get(Mapping(entries), "source", content) != Success(Null)
    ensures SourcePlan(name, Mapping(entries), content, isDir, isFile)
         == Failure(ValueError(InvalidSourceType(entries["source_type"])))
  {
  }

  /** The item one source of `_index_documents` contributes, or what it raises. */
  function LoadFor(source: Value, files: map<string, string>): Result<LoadItem, Exception> {
    if !source.Str? then Failure(AttributeError)                 // `source.endswith` on a non-string
    else if EndsWith(source.s, ".pdf") then
      if source.s in files then Success(PdfPages(source.s))
      else Failure(ValueError(PdfPathInvalid(source.s)))   // `PyPDFLoader` refuses a path that is no file
    else if source.s !in files then Failure(FileNotFoundError(source.s))
    else Success(TextContent(files[source.s]))
  }

  /** A source loads exactly when it is a string naming a file that exists, PDF or not. */
  lemma LoadForFailsIff(source: Value, files: map<string, string>)
    ensures LoadFor(source, files).Failure? <==> !source.Str? || source.s !in files
    ensures LoadFor(source, files).Success? ==>
      LoadFor(source, files).value == if EndsWith(source.s, ".pdf") then PdfPages(source.s) else TextContent(files[source.s])
  {
  }

  predicate EndsWith(s: string, suffix: string) {
    |suffix| <= |s| && s[|s| - |suffix|..] == suffix
  }

  /** How many leading sources `_index_documents` gets through. */
  function LoadablePrefix(sources: seq<Value>, files: map<string, string>): (n: nat)
    ensures n <= |sources|
    ensures forall j :: 0 <= j < n ==> LoadFor(sources[j], files).Success?
    ensures n < |sources| ==> LoadFor(sources[n], files).Failure?
    decreases |sources|
  {
    if sources == [] || LoadFor(sources[0], files).Failure? then 0
    else 1 + LoadablePrefix(sources[1..], files)
  }

  /** The loop of `_index_documents` stops exactly at the first source that fails. */
  lemma PrefixStopsAt(sources: seq<Value>, files: map<string, string>, i: nat)
    requires i <= LoadablePrefix(sources, files) && i < |sources|
    requires LoadFor(sources[i], files).Failure?
    ensures LoadablePrefix(sources, files) == i
  {
  }

  /** The calls `_index_documents` makes: a single-element list per source, in source order. */
  function Batches(sources: seq<Value>, files: map<string, string>): seq<seq<LoadItem>>
    requires forall j :: 0 <= j < |sources| ==> LoadFor(sources[j], files).Success?
    decreases |sources|
  {
    if sources == [] then []
    else Batches(sources[..|sources| - 1], files) + [[LoadFor(sources[|sources| - 1], files).value]]
  }

  /** Batch i is exactly the item of source i, alone in its list. */
  lemma {:induction false} BatchesAt(sources: seq<Value>, files: map<string, string>)
    requires forall j :: 0 <= j < |sources| ==> LoadFor(sources[j], files).Success?
    ensures |Batches(sources, files)| == |sources|
    ensures forall i :: 0 <= i < |sources| ==> Batches(sources, files)[i] == [LoadFor(sources[i], files).value]
    decreases |sources|
  {
    if sources != [] {
      var init := sources[..|sources| - 1];
      BatchesAt(init, files);
      forall i | 0 <= i < |sources| - 1
        ensures Batches(sources, files)[i] == [LoadFor(sources[i], files).value]
      {
        assert init[i] == sources[i];
      }
    }
  }

  /** The paths `os.walk` yields, as the list `_index_directory` hands on. */
  function PathValues(paths: seq<string>): seq<Value> {
    seq(|paths|, i requires 0 <= i < |paths| => Str(paths[i]))
  }

  class BaseMemoryType<M> {
    const name: string
    /** This memory's entry of the configuration file. */
    const config: Value
    /** The store `generate_with_autogen` built. */
    const memory: M
    /** The lists handed to `load_with_langchain`, in call order. */
    var loads: seq<seq<LoadItem>>

    constructor Init(name: string, config: Value, memory: M)
      ensures this.name == name && this.config == config && this.memory == memory && loads == []
    {
      this.name := name;
      this.config := config;
      this.memory := memory;
      loads := [];
    }

    /**
     * `BaseMemoryType(name, config)`: the configuration is loaded first, so a
     * missing entry raises before any store is generated; the store is then
     * built from the loaded entry.
     */
    static method Create(name: string, configFile: map<string, Value>, generate: (string, Value) -> M)
      returns (r: Result<BaseMemoryType<M>, Exception>)
      ensures r.Success? <==> name in configFile
      ensures r.Failure? ==> r.error == ValueError(MemoryNotFound(name))
      ensures r.Success? ==>
        && fresh(r.value) && r.value.name == name && r.value.config == configFile[name]
        && r.value.memory == generate(name, configFile[name]) && r.value.loads == []
    {
      var entry := LoadConfig(name, configFile);
      if entry.Failure? {
        return Failure(entry.error);
      }
      var m := new BaseMemoryType.Init(name, entry.value, generate(name, entry.value));
      r := Success(m);
    }

    /**
     * `_index_documents`: each PDF source is loaded as its pages and every other
     * source as the file's contents, one call per source; the first source that
     * fails stops the loop.
     */
    method IndexSources(sources: seq<Value>, files: map<string, string>) returns (r: Outcome<Exception>)
      modifies this
      ensures var n := LoadablePrefix(sources, files);
        && (r.Pass? <==> n == |sources|)
        && loads == old(loads) + Batches(sources[..n], files)
        && (r.Fail? ==> r.error == LoadFor(sources[n], files).error)
    {
      var i := 0;
      while i < |sources|
        invariant 0 <= i <= LoadablePrefix(sources, files)
        invariant loads == old(loads) + Batches(sources[..i], files)
      {
        var source := sources[i];
        ghost var item := LoadFor(source, files);
        if item.Failure? {
          PrefixStopsAt(sources, files, i);
        }
        assert sources[..i + 1][..i] == sources[..i];
        if !source.Str? {
          return Fail(AttributeError);
        }
        if EndsWith(source.s, ".pdf") {
          if source.s !in files {
            return Fail(ValueError(PdfPathInvalid(source.s)));
          }
          loads := loads + [[PdfPages(source.s)]];
        } else if source.s !in files {
          return Fail(FileNotFoundError(source.s));
        } else {
          loads := loads + [[TextContent(files[source.s])]];
        }
        i := i + 1;
      }
      assert sources[..i] == sources;
      r := Pass;
    }

    /**
     * `_index_directory`: collect the paths of every file the walk lists, in
     * walk order, and index them as `_index_documents` does.
     */
    method IndexDirectory(directory: Value, walk: Value -> seq<WalkStep>, join: (string, string) -> string,
                          files: map<string, string>)
      returns (r: Outcome<Exception>)
      modifies this
      ensures var sources := PathValues(Paths(walk(directory), join));
        var n := LoadablePrefix(sources, files);
        && (r.Pass? <==> n == |sources|)
        && loads == old(loads) + Batches(sources[..n], files)
        && (r.Fail? ==> r.error == LoadFor(sources[n], files).error)
    {
      var paths := CollectPaths(walk(directory), join);
      r := IndexSources(PathValues(paths), files);
    }

    /** `index_from_source`: run the checks, then index the directory, the files or the content. */
    method IndexFromSource(content: Value, isDir: Value -> bool, isFile: Value -> bool,
                           walk: Value -> seq<WalkStep>, join: (string, string) -> string, files: map<string, string>)
      returns (r: Outcome<Exception>)
      modifies this
      ensures match SourcePlan(name, config, content, isDir, isFile)
        case Failure(e) => r == Fail(e) && loads == old(loads)
        case Success(IndexDirectory(d)) =>
          var paths := PathValues(Paths(walk(d), join));
          var n := LoadablePrefix(paths, files);
          && loads == old(loads) + Batches(paths[..n], files)
          && (r.Pass? <==> n == |paths|)
          && (r.Fail? ==> r.error == LoadFor(paths[n], files).error)
        case Success(IndexDocuments(sources)) =>
          var n := LoadablePrefix(sources, files);
          && loads == old(loads) + Batches(sources[..n], files)
          && (r.Pass? <==> n == |sources|)
          && (r.Fail? ==> r.error == LoadFor(sources[n], files).error)
        case Success(LoadContent(items)) =>
          loads == old(loads) + [seq(|items|, i requires 0 <= i < |items| => TextContent(items[i]))] && r == Pass
    {
      var plan := SourcePlan(name, config, content, isDir, isFile);
      match plan {
        case Failure(e) =>
          r := Fail(e);
        case Success(IndexDirectory(d)) =>
          r := IndexDirectory(d, walk, join, files);
        case Success(IndexDocuments(sources)) =>
          r := IndexSources(sources, files);
        case Success(LoadContent(items)) =>
          loads := loads + [seq(|items|, i requires 0 <= i < |items| => TextContent(items[i]))];
          r := Pass;
      }
    }
  }
}
