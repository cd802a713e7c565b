/**
 * `HttpSvrConfig.__init__` (src/httpsvr/config.py): read the `server` table of
 * the loaded TOML configuration. Six keys are required and copied as they are;
 * three optional ones fall back to fixed defaults; an empty log path becomes
 * `./log`; the bind address is always 127.0.0.1.
 */
module Config {
  import opened Wrappers
  import opened Values

  /** The exception a subscript raises: a missing key, or a value that is not a table. */
  datatype ConfigError = KeyError(key: string) | NotATable(key: string)

  datatype HttpSvrConfig = HttpSvrConfig(
    ip: string,
    port: Value,
    workPath: Value,
    serverName: Value,
    threadCount: Value,
    processCount: Value,
    logPath: Value,
    logLevel: Value,
    logMaxSize: Value,
    maxBufferSize: Value)

  /** The keys read without a fallback, in the order they are read. */
  const RequiredKeys: seq<string> := ["port", "work_path", "server_name", "log_path", "log_level", "log_max_size"]

  const DefaultThreadCount := 8
  const DefaultLogPath := "./log"
  const BindAddress := "127.0.0.1"

  /** The entry `key` of the `server` table, or the error subscripting raises on the way there. */
  function Lookup(config: map<string, Value>, key: string): (r: Result<Value, ConfigError>)
    ensures r.Ok? <==> Entry(config, key).Some?
    ensures r.Ok? ==> r.value == Entry(config, key).value
    ensures r.Err? ==> Some(r.error) == FirstMissing(config, [key])
  {
    if "server" !in config then Err(KeyError("server"))
    else match config["server"]
      case Dict(section) => if key in section then Ok(section[key]) else Err(KeyError(key))
      case _ => Err(NotATable("server"))
  }

  /** The same lookup with any error swallowed and replaced by `default`. */
  function LookupOr(config: map<string, Value>, key: string, default: Value): Value
  {
    match Lookup(config, key)
    case Ok(v) => v
    case Err(_) => default
  }

  /** Reference reading: the entry `key` of the `server` table, if there is one. */
  function Entry(config: map<string, Value>, key: string): Option<Value>
  {
    if "server" in config && config["server"].Dict? && key in config["server"].entries then
      Some(config["server"].entries[key])
    else
      None
  }

  /** The error of the first key in `keys` that has no entry, if any. */
  function FirstMissing(config: map<string, Value>, keys: seq<string>): Option<ConfigError>
  {
    if |keys| == 0 then None
    else if Entry(config, keys[0]).None? then
      Some(if "server" !in config then KeyError("server")
           else if !config["server"].Dict? then NotATable("server")
           else KeyError(keys[0]))
    else FirstMissing(config, keys[1..])
  }

  /**
   * `HttpSvrConfig(config)`: it fails exactly when a required key is missing, with
   * the error of the first such key; otherwise required keys are copied, optional
   * ones are copied or defaulted, and only an empty log path is replaced.
   */
  function Load(config: map<string, Value>): (r: Result<HttpSvrConfig, ConfigError>)
    ensures r.Ok? <==> forall k :: k in RequiredKeys ==> Entry(config, k).Some?
    ensures r.Ok? ==>
              && r.value.ip == BindAddress
              && Some(r.value.port) == Entry(config, "port")
              && Some(r.value.workPath) == Entry(config, "work_path")
              && Some(r.value.serverName) == Entry(config, "server_name")
              && Some(r.value.logLevel) == Entry(config, "log_level")
              && Some(r.value.logMaxSize) == Entry(config, "log_max_size")
              && r.value.threadCount == Entry(config, "thread_count").GetOr(Int(DefaultThreadCount))
              && r.value.processCount == Entry(config, "process_count").GetOr(Int(0))
              && r.value.maxBufferSize == Entry(config, "max_buffer_size").GetOr(Int(0))
              && (Entry(config, "log_path") == Some(Str("")) ==> r.value.logPath == Str(DefaultLogPath))
              && (Entry(config, "log_path") != Some(Str("")) ==> Some(r.value.logPath) == Entry(config, "log_path"))
  {
    var port :- Lookup(config, "port");
    var workPath :- Lookup(config, "work_path");
    var serverName :- Lookup(config, "server_name");
    var threadCount := LookupOr(config, "thread_count", Int(DefaultThreadCount));
    var processCount := LookupOr(config, "process_count", Int(0));
    var logPath :- Lookup(config, "log_path");
    var logLevel :- Lookup(config, "log_level");
    var logMaxSize :- Lookup(config, "log_max_size");
    var maxBufferSize := LookupOr(config, "max_buffer_size", Int(0));
    Ok(HttpSvrConfig(
      ip := BindAddress,
      port := port,
      workPath := workPath,
      serverName := serverName,
      threadCount := threadCount,
      processCount := processCount,
      logPath := if logPath == Str("") then Str(DefaultLogPath) else logPath,
      logLevel := logLevel,
      logMaxSize := logMaxSize,
      maxBufferSize := maxBufferSize))
  }

  lemma {:induction false} FirstMissingAt(config: map<string, Value>, keys: seq<string>, i: nat)
    requires i < |keys| && Entry(config, keys[i]).None?
    requires forall j :: 0 <= j < i ==> Entry(config, keys[j]).Some?
    ensures FirstMissing(config, keys) == FirstMissing(config, [keys[i]])
  {
    if i > 0 {
      FirstMissingAt(config, keys[1..], i - 1);
    }
  }

  /** A failing load reports the first required key, in reading order, that has no entry. */
  lemma LoadReportsFirstMissing(config: map<string, Value>)
    requires Load(config).Err?
    ensures Some(Load(config).error) == FirstMissing(config, RequiredKeys)
  {
    var k := RequiredKeys;
    var i := if Entry(config, k[0]).None? then 0
      else if Entry(config, k[1]).None? then 1
      else if Entry(config, k[2]).None? then 2
      else if Entry(config, k[3]).None? then 3
      else if Entry(config, k[4]).None? then 4
      else 5;
    FirstMissingAt(config, k, i);
    assert Some(Load(config).error) == FirstMissing(config, [k[i]]);
  }
}
