/**
 * `BaseAgentType` of hive/hive/agents.py: an agent type starts without a
 * configuration, loads its own entry of the agent configuration file when it
 * is initialised, reads its tool configuration from that entry, and then builds
 * the agent with the hook `generate_with_autogen` (the parameter `generate`).
 */
module AgentTypes {
  import opened Wrappers
  import opened Values

  /** The empty mapping `{}`, the default tool configuration. */
  const NoToolConfig: Value := Mapping(map[])

  /** `config.get('tool_config', {})`: the tool configuration an agent's entry carries. */
  function ToolConfigOf(entry: Value): Result<Value, Exception> {
    Get(entry, "tool_config", NoToolConfig)
  }

  class BaseAgentType {
    /** `self.config`: `None` until `_load_config` succeeds. */
    var config: Value
    /** `self.tool_configs`: absent until `initialize` sets it. */
    var toolConfigs: Option<Value>

    /** `BaseAgentType()`: no configuration yet. */
    constructor ()
      ensures config == Null && toolConfigs == None
    {
      config := Null;
      toolConfigs := None;
    }

    /** `_load_config`: take the entry `name` of the configuration file, which must be present. */
    method LoadConfig(name: string, configFile: map<string, Value>) returns (r: Outcome<Exception>)
      modifies this`config
      ensures r.Pass? <==> name in configFile
      ensures r.Pass? ==> config == configFile[name]
      ensures r.Fail? ==> r.error == ValueError(AgentNotFound(name)) && config == old(config)
    {
      if name !in configFile {
        return Fail(ValueError(AgentNotFound(name)));
      }
      config := configFile[name];
      r := Pass;
    }

    /**
     * `initialize`: load the configuration, set the tool configuration from
     * its `tool_config` key (an empty mapping when absent), and return exactly
     * what `generate_with_autogen` builds from them.
     */
    method Initialize<C, Mem, A>(name: string, configFile: map<string, Value>, modelClient: C, memory: seq<Mem>,
                                 generate: (string, C, seq<Mem>, Value, Value) -> A)
      returns (r: Result<A, Exception>)
      modifies this
      ensures name !in configFile ==>
        r == Failure(ValueError(AgentNotFound(name))) && config == old(config) && toolConfigs == old(toolConfigs)
      ensures name in configFile ==> config == configFile[name]
      ensures name in configFile ==>
        (match ToolConfigOf(configFile[name])
         case Failure(e) => r == Failure(e) && toolConfigs == old(toolConfigs)
         case Success(tools) =>
           toolConfigs == Some(tools) && r == Success(generate(name, modelClient, memory, configFile[name], tools)))
    {
      var loaded := LoadConfig(name, configFile);
      if loaded.Fail? {
        return Failure(loaded.error);
      }
      var tools := ToolConfigOf(config);
      if tools.Failure? {
        return Failure(tools.error);
      }
      toolConfigs := Some(tools.value);
      r := Success(generate(name, modelClient, memory, config, tools.value));
    }
  }

  /**
   * The tool configuration is the entry's `tool_config`, or `{}` when the entry
   * has none; an entry that is not a mapping has no `get`.
   */
  lemma ToolConfigDefault(entry: Value)
    ensures entry.Mapping? ==>
      ToolConfigOf(entry) == Success(if "tool_config" in entry.entries then entry.entries["tool_config"] else Mapping(map[]))
    ensures !entry.Mapping? ==> ToolConfigOf(entry) == Failure(AttributeError)
  {
  }
}
