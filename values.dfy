/**
 * The Python values the core manipulates: what `yaml.safe_load` yields for the
 * configuration files, the exceptions the core raises, and the two ways the
 * core reads a mapping (`d.get(key, default)` and `d[key]`).
 */
module Values {
  import opened Wrappers

  /** A YAML value: scalars, lists, and mappings with string keys. */
  datatype Value =
    | Null
    | Bool(b: bool)
    | Int(i: int)
    | Float(f: real)
    | Str(s: string)
    | List(items: seq<Value>)
    | Mapping(entries: map<string, Value>)

  /** Why a `ValueError` was raised; each names the message the source formats. */
  datatype ValueErrorReason =
    | AgentNotFound(agent: string)            // "Agent {name} not found in config file."
    | MemoryNotFound(memory: string)          // "Memory {name} not found in config file."
    | SourceNotFound(memory: string)          // "Source not found in config file for memory {name}."
    | DirectoryMissing(directory: Value)      // "Directory {source} does not exist."
    | FilesMissing(files: Value)              // "Files {source} do not exist. ..."
    | ContentNotStrings                       // "Content must be a list of strings."
    | InvalidSourceType(sourceType: Value)    // "Invalid index source type: ..."
    | EnvVarNotSet(variable: string)          // "{VAR} is not set in the environment variables."
    | InvalidProvider(provider: Value)        // "Invalid provider: {provider}. Options are: ..."
    | BothDirectoryAndFiles                   // "Cannot provide both directory and files."
    | NeitherDirectoryNorFiles                // "Either directory or files must be provided."
    | PdfPathInvalid(path: string)            // `PyPDFLoader`: "File path {path} is not a valid file or url"

  /** The Python exceptions the core can raise. */
  datatype Exception =
    | ValueError(reason: ValueErrorReason)
    | KeyError(key: string)
    | TypeError
    | AttributeError
    | IndexError
    | FileNotFoundError(path: string)

  /** Python's `hash()` succeeds on scalars and fails on lists and dicts. */
  predicate Hashable(v: Value) {
    !v.List? && !v.Mapping?
  }

  /** `v.get(key, default)`: only mappings have `get`. */
  function Get(v: Value, key: string, default: Value): (r: Result<Value, Exception>)
    ensures r.Failure? <==> !v.Mapping?
    ensures r.Failure? ==> r.error == AttributeError
    ensures v.Mapping? && key in v.entries ==> r == Success(v.entries[key])
    ensures v.Mapping? && key !in v.entries ==> r == Success(default)
  {
    match v
    case Mapping(entries) => Success(if key in entries then entries[key] else default)
    case _ => Failure(AttributeError)
  }

  /** `v[key]` with a string key: a missing key raises KeyError, a non-mapping TypeError. */
  function Index(v: Value, key: string): (r: Result<Value, Exception>)
    ensures r.Success? <==> v.Mapping? && key in v.entries
    ensures r.Success? ==> r.value == v.entries[key]
    ensures v.Mapping? && key !in v.entries ==> r == Failure(KeyError(key))
    ensures !v.Mapping? ==> r == Failure(TypeError)
  {
    match v
    case Mapping(entries) => if key in entries then Success(entries[key]) else Failure(KeyError(key))
    case _ => Failure(TypeError)
  }
}
