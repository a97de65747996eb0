# hive: a verified model of its pipeline, memory and factory glue

hive builds multi-agent pipelines on top of autogen. The pieces of logic that
hive itself contains are small. This project models them in Dafny and proves
what they promise. The pieces are:

- **Pipeline message handling** (`Orchestration`).
  - Messages from sources outside the pipeline are rewritten into `"user"`
    context messages before the inner flow sees them.
  - The inner stream is filtered and is split into a final message and its
    inner messages.
- **Chunking and indexing bookkeeping** (`Retrieval`).
  - Fixed-width 1500-character chunking with whitespace stripping.
  - The validation of `populate`'s arguments.
  - The per-chunk records that the document indexer appends, with their
    `source` and `chunk_index` metadata.
  - `ChatMemory.add`, which appends one text record per string.
- **Memory configuration and index sources** (`MemoryTypes`).
  - `_load_config` and the constructor's order: configuration first, then
    generation.
  - The checks and the dispatch of `index_from_source`.
  - The per-source loop of `_index_documents`.
- **Agent configuration** (`AgentTypes`): the `config` and `tool_configs`
  fields that `initialize` sets.
- **The component factory** (`Factory`).
  - The memory cache, keyed by name.
  - The model-client cache, whose key is the model name, or the provider
    string for the OpenAI assistant API.
  - Extraction of the extra keyword arguments.
  - Provider validation and the environment-variable checks.
  - `create_agent`'s mapping from memory wrappers to their stores.
- **The directory walk** (`Walk`): the nested loops of the `_index_directory`
  methods that join every walked file name with its directory, in walk order.
- **The weather tool** (`ToolAgent`): the five-city table and the report
  string that `get_weather_data` builds.

How Python is represented:

- Python exceptions are one `Exception` datatype (`Values`).
  - A `ValueError` carries a structured reason instead of its message text.
- Operations that may raise return a `Result` or an `Outcome` (`Wrappers`).
- Configuration read from YAML is the `Value` datatype.
  - `dict.get` is `Values.Get`; `d[key]` is `Values.Index`.
  - `Values.Index` raises `KeyError` for a missing key, and `TypeError` when
    the value is not a mapping.
- Inputs that the Python code takes from outside are parameters:
  - the environment is a `map<string, string>`; a missing key means
    `os.getenv` returned `None`;
  - file contents are a `map<string, string>`; a missing path means `open`
    raises `FileNotFoundError`;
  - `os.path.isdir`, `os.path.isfile`, `os.walk` and `os.path.join` are
    functions; a walk is the sequence of its steps, each a directory and the
    names of the files in it (`Walk`);
  - `str.lower`, `str.title` and participant membership are functions;
  - the inner flow's `run` and `run_stream`, and each `generate_with_autogen`,
    are functions.
- Classes whose fields the source updates stay classes:
  - `DocumentIndexer.records` and `ChatMemory.contents` are the memory's
    appended records.
  - `BaseMemoryType.loads` holds the lists handed to `load_with_langchain`.
  - `ComponentFactory` has the two caches.
  - `BaseAgentType` has `config` and `toolConfigs`.
- Methods that change state are proved against specification functions,
  such as `Chunks`, `ChunkRecords`, `Batches`, `TextRecords` and `KwargsOf`.
  Lemmas state the properties of those functions.

Where the code and its description differ, the model follows the code:

- `create_agent` calls `_update_clients` before `initialize`. An agent
  missing from the configuration therefore raises the `KeyError` of
  `agent_config[name]`. It never reaches the "not found" `ValueError` of
  `_load_config`.
- `_update_clients` keys the cache by model name only. Two agents with the
  same model but different providers or extra arguments share one client
  (`Factory.SharedModelSharesKey`).
- `for file in source` over a string iterates its characters. `files` given
  as a string is therefore checked character by character.

## Model

| member | source | states |
|---|---|---|
| Orchestration.Obfuscate | hive/hive/orchestration.py:39-46 | defines the treatment of one message: a foreign message becomes a user context message, any other is kept; its properties are the lemmas below |
| Orchestration.ObfuscateAll | hive/hive/orchestration.py:37-48 | defines the converted list as the treatment of each message in order; `ObfuscateAllAt` states its shape |
| Orchestration.ObfuscateNonpipelineAgents | hive/hive/orchestration.py:34-48 | the loop's output equals the specification `ObfuscateAll`: same length, and output i is the conversion of input i |
| Orchestration.ObfuscateAllAt | hive/hive/orchestration.py:37-48 | obfuscation preserves length and order; element i of the output depends only on element i of the input |
| Orchestration.ObfuscateUnchangedIff | hive/hive/orchestration.py:39-46 | a message is returned unchanged exactly when its source is a participant or lowercases to "user" |
| Orchestration.ObfuscateForeign | hive/hive/orchestration.py:39-44 | every other message becomes a Text message from "user" whose content is "Context from " + source + ": " + content |
| Orchestration.ObfuscatedNotForeign | hive/hive/orchestration.py:39-44 | no result of obfuscation is foreign any more |
| Orchestration.ObfuscateAllIdempotent | hive/hive/orchestration.py:37-48 | obfuscating twice gives the same messages as obfuscating once |
| Orchestration.OnMessages | hive/hive/orchestration.py:50-53 | the inner pipeline runs on the obfuscated messages, and its result is returned |
| Orchestration.Collected | hive/hive/orchestration.py:61-65 | defines `final_messages`: the stream items outside the task that are not TaskResult, in stream order; `CollectedMembers` and `CollectedAppend` state its properties |
| Orchestration.WithoutStops | hive/hive/orchestration.py:66-67 | defines what is yielded from the collected items: those that are not StopMessages, in order; `WithoutStopsMembers` and `WithoutStopsAppend` state its properties |
| Orchestration.CollectedMembers | hive/hive/orchestration.py:63-65 | an item is collected exactly when it occurs in the stream, is not in the obfuscated task and is not a TaskResult |
| Orchestration.CollectedAppend | hive/hive/orchestration.py:63-65 | collecting distributes over concatenation of the stream, so stream order is kept |
| Orchestration.WithoutStopsMembers | hive/hive/orchestration.py:66-67 | an item is yielded exactly when it is collected and is not a StopMessage |
| Orchestration.WithoutStopsAppend | hive/hive/orchestration.py:66-67 | dropping stop messages distributes over concatenation, so order is kept |
| Orchestration.YieldedMembers | hive/hive/orchestration.py:63-67 | the items yielded before the Response are the stream items outside the task that are neither TaskResult nor Stop |
| Orchestration.OnMessagesStream | hive/hive/orchestration.py:55-69 | yields the collected items without stops; the Response exists exactly when something was collected, and its inner messages followed by its chat message are the collected list; otherwise `final_messages[-1]` raises IndexError |
| Retrieval.Strip | src/memory/retrieval.py:80 | defines `str.strip()` over Python's whitespace set; `StripIsTrimmedSlice` states what it is |
| Retrieval.TrimStartIsSuffix | src/memory/retrieval.py:80 | stripping the front removes only whitespace, leaves a suffix, and leaves no leading whitespace |
| Retrieval.TrimEndIsPrefix | src/memory/retrieval.py:80 | stripping the back removes only whitespace, leaves a prefix, and leaves no trailing whitespace |
| Retrieval.StripIsTrimmedSlice | src/memory/retrieval.py:80 | `strip()` is a contiguous slice: everything cut on either side is whitespace, and the result neither starts nor ends with whitespace |
| Retrieval.StripShorter | src/memory/retrieval.py:80 | a stripped chunk is never longer than the chunk |
| Retrieval.ChunkCountIsCeiling | src/memory/retrieval.py:78 | the number of loop steps is the ceiling of len/1500, and it is zero exactly for empty content |
| Retrieval.PiecesAt | src/memory/retrieval.py:78-79 | there are ceil(len/1500) windows, and window k is content[1500k .. min(1500(k+1), len)] |
| Retrieval.PiecesConcat | src/memory/retrieval.py:78-79 | the windows, concatenated in order, give back the content |
| Retrieval.Chunks | src/memory/retrieval.py:76-81 | defines the chunker's result as the stripped windows; `ChunksShape` and `ChunksCharacterised` state what it is |
| Retrieval.ChunksCharacterised | src/memory/retrieval.py:76-81 | a list with ceil(len/1500) entries whose entry k is the stripped window k is exactly the chunker's result |
| Retrieval.ChunksShape | src/memory/retrieval.py:76-81 | ceil(len/1500) chunks, none for empty content; chunk k is the stripped window k, of length at most 1500 |
| Retrieval.ChunkContent | src/memory/retrieval.py:76-81 | `_chunk_content`'s loop returns exactly `Chunks(content)`, with its count and the form of each chunk |
| Retrieval.ChunkRecordsAt | src/memory/retrieval.py:118-119 | one record per chunk, in order, with mime type text and metadata source = path, chunk_index = position |
| Retrieval.ReadablePrefix | src/memory/retrieval.py:110-111 | the sources read before the first missing file stops the loop: all earlier ones exist, and the one it stops at does not |
| Retrieval.TotalChunksCountsRecords | src/memory/retrieval.py:108-112 | the summed per-source chunk count equals the number of records appended |
| Retrieval.DocumentIndexer.constructor | src/memory/retrieval.py:94-95 | the indexer starts on the memory it is given |
| Retrieval.DocumentIndexer.ChunkFile | src/memory/retrieval.py:124-132 | a readable file yields `Chunks` of its contents; an unreadable one raises FileNotFoundError |
| Retrieval.DocumentIndexer.IndexDocument | src/memory/retrieval.py:116-122 | appends `ChunkRecords(source, chunks)` to the memory and returns the chunks; a missing file appends nothing |
| Retrieval.DocumentIndexer.IndexNext | src/memory/retrieval.py:110-112 | one turn of the loop: a readable source appends its records and adds its chunk count; an unreadable one raises FileNotFoundError and appends nothing |
| Retrieval.DocumentIndexer.IndexDocuments | src/memory/retrieval.py:108-114 | appends the records of every source before the first missing file, in order; succeeds exactly when every file exists, with the total being the summed chunk count; otherwise fails with that file's FileNotFoundError |
| Retrieval.DocumentIndexer.IndexDirectory | src/memory/retrieval.py:97-104 | as written: the walk is collected, then the call `self._index_documents` names a method `DocumentIndexer` lacks, so every call raises AttributeError and adds no record |
| Retrieval.DocumentIndexer.IndexDirectoryIntended | src/memory/retrieval.py:97-106 | the evident intent: the walked paths are indexed in walk order through `IndexDocuments`, giving the records of the readable prefix, success exactly when every path is readable, otherwise FileNotFoundError for the first missing one |
| Retrieval.DirectoryIndexingDiffers | src/memory/retrieval.py:104 | for a directory holding one readable file, the intended indexing reads the one path and adds one record, where the code as written raises |
| Retrieval.TextRecordsAt | src/memory/retrieval.py:88-91 | one TEXT record per input string, in input order, without metadata |
| Retrieval.TextRecordsAppend | src/memory/retrieval.py:88-91 | adding a + b appends the same records as adding a and then b |
| Retrieval.ChatMemory.constructor | src/memory/retrieval.py:84-85 | a chat memory starts with the given contents |
| Retrieval.ChatMemory.Add | src/memory/retrieval.py:88-91 | the new contents are the old contents followed by `TextRecords(content)` and nothing else |
| Retrieval.Populate | src/memory/retrieval.py:42-50 | succeeds exactly when one of directory and files is given; both raise one ValueError, neither another; files index exactly that list and a directory goes through directory indexing |
| MemoryTypes.LoadConfig | hive/hive/memory.py:14-18 | succeeds exactly when the name is in the configuration, with its entry; otherwise ValueError for that memory |
| MemoryTypes.Iterate | hive/hive/memory.py:36 | defines what `for file in source` iterates: a list's items or a string's characters; any other value raises TypeError |
| MemoryTypes.SourcePlan | hive/hive/memory.py:25-46 | defines the checks and the dispatch of `index_from_source` in the source's order; each case is stated by a lemma below |
| MemoryTypes.LoadFor | hive/hive/memory.py:61-68 | defines what one source contributes: its pages for a ".pdf" path, the file's text otherwise; a missing ".pdf" file raises the loader's ValueError, a missing text file FileNotFoundError, a non-string AttributeError; `LoadForFailsIff` states when it fails |
| MemoryTypes.LoadForFailsIff | hive/hive/memory.py:61-68 | a source fails to load exactly when it is not a string or names no existing file, PDF or not; otherwise it gives the pages of a PDF path or the text of the file |
| MemoryTypes.BaseMemoryType.Init | hive/hive/memory.py:10-12 | a memory holds its name, its configuration entry and its store, and has loaded nothing yet |
| MemoryTypes.BaseMemoryType.Create | hive/hive/memory.py:9-12 | succeeds exactly when the name is configured; the store is generated from the loaded entry, so a missing name never generates one |
| MemoryTypes.SourceTypeDefaultsToContent | hive/hive/memory.py:26 | without `source_type` a list of strings is loaded as content |
| MemoryTypes.ConfiguredSourceWins | hive/hive/memory.py:27 | a configured `source` makes the `content` argument irrelevant |
| MemoryTypes.MissingSourceFails | hive/hive/memory.py:27-29 | a source that is None, because none is configured or passed or because the configuration says `source: null`, raises the source-not-found ValueError |
| MemoryTypes.DirectoryPlan | hive/hive/memory.py:31-34 | "directory" indexes the source when it is a directory and raises ValueError when it is not |
| MemoryTypes.FilesPlan | hive/hive/memory.py:35-38 | "files" indexes the list when every path is a file and raises ValueError when one is not |
| MemoryTypes.ContentPlan | hive/hive/memory.py:39-44 | "content" loads a list of strings as it is; anything else raises the content ValueError |
| MemoryTypes.UnknownSourceTypeFails | hive/hive/memory.py:45-46 | any other source type raises the invalid-source-type ValueError |
| MemoryTypes.LoadablePrefix | hive/hive/memory.py:59-68 | the sources handled before the first failure: all earlier ones load, and the one it stops at raises |
| MemoryTypes.BatchesAt | hive/hive/memory.py:58-68 | one call per source, in source order, each with a single-element list holding that source's pages or file contents |
| MemoryTypes.BaseMemoryType.IndexSources | hive/hive/memory.py:57-68 | `loads` grows by the batches of the sources before the first failure; success exactly when every source loads; otherwise that source's error |
| MemoryTypes.BaseMemoryType.IndexDirectory | hive/hive/memory.py:48-55 | indexes the walked paths in walk order as `IndexSources` does: the batches of the loadable prefix, success exactly when every path loads, otherwise that path's error |
| MemoryTypes.BaseMemoryType.IndexFromSource | hive/hive/memory.py:25-46 | a failed check raises its error and loads nothing; otherwise it indexes the walked directory or the listed files, raising the error of the first source that fails, or loads the content list once |
| Walk.CollectPaths | hive/hive/memory.py:50-54 | the nested loops over the walk build exactly `Paths`: every file joined with its step's root, step after step |
| Walk.JoinedAt | hive/hive/memory.py:52-54 | a step contributes one joined path per file name, in the order the names are listed |
| Walk.PathsAppend | hive/hive/memory.py:51-54 | walking steps a and then b lists the paths of a and then those of b |
| Walk.PathsCount | hive/hive/memory.py:50-54 | the list holds one path per file listed by the walk |
| Walk.PathsAt | hive/hive/memory.py:50-54 | walk order: file j of step i sits at the position after all files of earlier steps plus j, joined with step i's root |
| AgentTypes.BaseAgentType.constructor | hive/hive/agents.py:6-7 | a fresh agent type has no configuration |
| AgentTypes.BaseAgentType.LoadConfig | hive/hive/agents.py:20-24 | succeeds exactly when the name is configured and then sets `config` to its entry; otherwise ValueError and `config` unchanged |
| AgentTypes.BaseAgentType.Initialize | hive/hive/agents.py:9-13 | configuration is loaded before generation; `tool_configs` is the entry's `tool_config` or `{}`; the result is what `generate_with_autogen` returns |
| AgentTypes.ToolConfigOf | hive/hive/agents.py:12 | defines `config.get('tool_config', {})`, used both by `initialize` and by the factory; `ToolConfigDefault` states it |
| AgentTypes.ToolConfigDefault | hive/hive/agents.py:12 | a mapping entry without `tool_config` yields the empty mapping, one with it yields its value, and an entry that is not a mapping raises AttributeError |
| Factory.MakeClient | hive/hive/factory.py:69-118 | succeeds exactly for one of the seven providers of line 19 with its credentials present; unknown providers raise the invalid-provider ValueError; a missing API key raises its ValueError before any client is made; openai and gemini both build an OpenAI client, and the assistant API builds AsyncOpenAI with the key |
| Factory.KwargsOf | hive/hive/factory.py:64-67 | the keyword arguments are the configuration without exactly "model" and "provider", with every other entry unchanged |
| Factory.Kwargs | hive/hive/factory.py:64-67 | the loop over the configuration builds exactly `KwargsOf` |
| Factory.ModelClientFor | hive/hive/factory.py:59-119 | defines `_create_model_client`: read model, then provider, then dispatch through `MakeClient` with `KwargsOf` |
| Factory.CreateModelClient | hive/hive/factory.py:59-119 | reads model and provider, extracts the keyword arguments and dispatches as `MakeClient` |
| Factory.UnknownProviderRejected | hive/hive/factory.py:117-118 | a provider outside the handled set never yields a client |
| Values.Get | hive/hive/memory.py:26-27 | `d.get(key, default)`: the entry when present, the default when absent, AttributeError on anything but a mapping |
| Values.Index | hive/hive/factory.py:49-50 | `d[key]`: the entry when present, KeyError when absent, TypeError on anything but a mapping |
| Factory.LlmConfig | hive/hive/factory.py:49 | defines `agent_config[name]['llm_config']`, with the KeyError of an absent agent |
| Factory.CacheKey | hive/hive/factory.py:49-50 | a cache key that is computed can be a dictionary key |
| Factory.CacheKeyRule | hive/hive/factory.py:50 | the key is the model, or the provider string for "openai_assistant_api" |
| Factory.SharedModelSharesKey | hive/hive/factory.py:50 | two agents with the same model and no assistant API share one cache entry |
| Factory.ComponentFactory.constructor | hive/hive/factory.py:21-31 | both caches start empty; a missing memory configuration file gives `{}` |
| Factory.ComponentFactory.LoadMemory | hive/hive/factory.py:39-45 | a cached name returns the cached object and leaves the cache unchanged; otherwise at most one new memory is built and cached under its name |
| Factory.ComponentFactory.UpdateClients | hive/hive/factory.py:47-57 | a cache hit returns the cached client and changes nothing; a miss creates a client and caches it under its key; failures change nothing |
| Factory.MemoryValues | hive/hive/factory.py:37 | defines `[m.memory for m in memory]`: each wrapper's store, in the given order |
| Factory.ComponentFactory.CreateAgent | hive/hive/factory.py:33-37 | an agent missing from the configuration raises KeyError; a key error leaves the cache unchanged; a cached client is reused with the cache unchanged; otherwise creation succeeds exactly when the client can be made, caching it under its key, or raises the client's error with the cache unchanged; the agent is generated from that client, each wrapper's store in the given order, the entry and its tool configuration |
| ToolAgent.GetWeatherData | src/agents/tool_agent.py:24-38 | defines the lookup and the report; `WeatherCases` states its three outcomes |
| ToolAgent.WeatherCases | src/agents/tool_agent.py:24-38 | an empty location gives ""; a known city gives the "Weather for" report of its table entry; an unknown one gives "No weather data available for " + location + "." |
| ToolAgent.CaseVariantsShareData | src/agents/tool_agent.py:29-36 | locations that lowercase alike report the same data lines |
| ToolAgent.KnownIffWeatherHeading | src/agents/tool_agent.py:29-38 | a non-empty location gets a weather report exactly when its lowercase form is in the table |
| ToolAgent.DatabaseCities | src/agents/tool_agent.py:16-22 | the table has exactly the five cities new york, london, tokyo, sydney and paris |
| ToolAgent.NatToStringRoundTrip | src/agents/tool_agent.py:33-35 | the decimal digits written for a number are digits, have no leading zero, and read back as the number |

## Left out

- The directed-graph execution engine (readiness, fan-in, message filters, cycle caps): it belongs to autogen, which is not part of this model.
- src/pipelines/poem_writer.py, src/runner.py and src/memory/semantic.py: wiring, demonstration entry points, and chromadb and langchain construction, with no logic of their own.
- src/agents/basic_agent.py, src/agents/rag_agent.py, src/agents/openai_assistant.py and `WeatherAgent.generate_with_autogen`: constructor wrappers over autogen and OpenAI. `generate_with_autogen` is a function parameter throughout. `WeatherAgent.generate_with_autogen` declares `(name, model_client)` while `initialize` passes three arguments, so in Python that call would raise TypeError; the model does not represent it.
- hive/hive/__init__.py: re-exports only.
- File, YAML and environment I/O: the configuration, file contents and the environment are maps; `os.walk`, `isdir` and `isfile` are functions.
- Reading a file with `encoding="utf-8"` (hive/hive/memory.py:66-67, src/memory/retrieval.py:125-126): a file that exists but does not decode raises UnicodeDecodeError, and a path that names a directory raises IsADirectoryError; the `files` map gives every existing file readable text, so neither error is modelled.
- MemoryTypes.LoadFor: `PyPDFLoader` downloads a `.pdf` path that is a URL and can fail while parsing a PDF; the model loads a `.pdf` path exactly when it names an existing file and treats its pages as opaque.
- A TypeError that `os.path.isdir` or `os.path.isfile` raise for an argument that is not a path is not modelled; the predicates decide every value.
- async/await: every coroutine is one sequential step, and the stream is a finite sequence.
- `print` and `verbose` output; the `close()` methods.
- Retrieval.DocumentIndexer.IndexDocuments: returns the total that the source only prints.
- Client construction: each client is a datatype naming its class and arguments. It does not model the foundry `model_info` dictionary or a clash between an extra keyword argument and a named one.
- Factory.MakeClient: the autogen client constructors are assumed never to raise, so success means a valid provider with its credentials present; a constructor that refuses its arguments, such as `OpenAIChatCompletionClient` given a model name it does not know and no `model_info`, is not modelled.
- The message text of each ValueError; a structured reason stands for it.
- `str.lower`, `str.title` and participant membership are abstract functions; message equality for `in` is value equality.
- `RAGMemory._index_documents` and `RAGMemory._index_directory` (whose walk is the one of `Walk.CollectPaths`): they call `_chunk` and `add` from the `RetrievalMemory` base class, which is not part of this model; the chunking is specified by `Retrieval.ChunkContent`.
- `DocumentIndexer._add_to_memory`: appending one record is the step of `Retrieval.DocumentIndexer.IndexDocument`.
- MemoryTypes.SourcePlan: a `files` source that is a mapping is reported as TypeError; Python would iterate its keys.
- `load_with_langchain` is recorded as the list it receives; the loading itself belongs to each memory type.
- Retrieval.DocumentIndexer.constructor: `self.memory = memory` keeps the caller's memory object, while the model's `records` belong to the indexer alone, so records that reach the memory through another reference, or that the indexer adds and another holder sees, are not captured.
- Retrieval.ChatMemory.constructor: the default `memory_contents=[]` is one list shared by every `ChatMemory()` built without contents, and a passed list may be kept by `ListMemory` (not part of this model) rather than copied. The model gives each memory its own copy of the contents, so it does not capture records added through one memory showing up in another.
- Values.Value: a `Mapping` has string keys only, so a YAML key such as `1:` or `on:`, which YAML reads as a number or a boolean, cannot be represented; YAML dates and other tags are not represented either.
- Factory.ComponentFactory: the client cache `modelClients` is the one map keyed by `Value`; there a number and a boolean key are kept apart from an equal one of another type, while Python treats `1`, `1.0` and `True` as one dictionary key.

## Findings

| source | as written | input that shows it | evidently intended | confidence | as-written member | corrected member |
|---|---|---|---|---|---|---|
| src/memory/retrieval.py:104 | `DocumentIndexer._index_directory` calls `self._index_documents`, which `DocumentIndexer` does not define (its method is `index_documents`, line 108), so the call raises AttributeError | a directory `d` holding one readable file `a.txt` | call `self.index_documents(files, verbose)` and index every walked file | high; not executed | Retrieval.DocumentIndexer.IndexDirectory, Retrieval.DirectoryIndexingDiffers | Retrieval.DocumentIndexer.IndexDirectoryIntended |
