/**
 Extension configuration: defaulting and validation (`parseConfig` in
 payouts-substitutor/main.go). JSON decoding of the raw description is left
 to the host; this module starts from the decoded record.
 */
module Config {
  import opened Wrappers
  import opened LogLevels

  datatype Configuration = Configuration(logFile: string, logLevel: string, rpcNode: string)

  const DefaultRpcNode: string := "https://eu.rpc.tez.capital"

  datatype ConfigError =
    | LogOpenFailed
    | InvalidLogLevel(level: string)
    | InvalidRpcNode(node: string)

  /** The facts `parseConfig` asks of the operating system and of Go's URL
      parser: whether the configured log file can be opened for appending,
      and whether a string is an absolute request URI. */
  datatype Host = Host(logOpens: bool, isRequestUri: string -> bool)

  function EffectiveLevel(raw: Configuration): string {
    if |raw.logLevel| == 0 then Contracts else raw.logLevel
  }

  function EffectiveRpcNode(raw: Configuration): string {
    if |raw.rpcNode| == 0 then DefaultRpcNode else raw.rpcNode
  }

  /** A configuration the resolver may run under. */
  predicate Valid(cfg: Configuration, host: Host) {
    IsConfigurable(cfg.logLevel) && host.isRequestUri(cfg.rpcNode)
  }

  /** Probe the log file, default the level, reject a level outside the
      table or ranked as `system`, default the node, reject a bad URI. */
  function ParseConfig(raw: Configuration, host: Host): (r: Result<Configuration, ConfigError>)
    ensures r.Success? ==> Valid(r.value, host)
    ensures r.Success? ==> r.value.logFile == raw.logFile
    ensures r.Success? && raw.logLevel != "" ==> r.value.logLevel == raw.logLevel
    ensures r.Success? && raw.rpcNode != "" ==> r.value.rpcNode == raw.rpcNode
  {
    if |raw.logFile| > 0 && !host.logOpens then
      Failure(LogOpenFailed)
    else
      var level := EffectiveLevel(raw);
      if level !in Ranks || Ranks[level] == Ranks[System] then
        Failure(InvalidLogLevel(level))
      else
        var node := EffectiveRpcNode(raw);
        if !host.isRequestUri(node) then
          Failure(InvalidRpcNode(node))
        else
          Success(Configuration(raw.logFile, level, node))
  }

  /** A configuration is accepted exactly when its log file (if any) opens,
      its defaulted level is one of the five configurable ones and its
      defaulted node parses; the accepted value is the defaulted record. */
  lemma AcceptsExactly(raw: Configuration, host: Host)
    ensures ParseConfig(raw, host).Success? <==>
              (raw.logFile == "" || host.logOpens)
              && IsConfigurable(EffectiveLevel(raw))
              && host.isRequestUri(EffectiveRpcNode(raw))
    ensures ParseConfig(raw, host).Success? ==>
              ParseConfig(raw, host).value
              == Configuration(raw.logFile, EffectiveLevel(raw), EffectiveRpcNode(raw))
  {
  }

  /** An empty level becomes `contracts`, an empty node the public endpoint. */
  lemma Defaults(raw: Configuration, host: Host)
    requires raw.logLevel == "" && raw.rpcNode == ""
    requires raw.logFile == "" || host.logOpens
    requires host.isRequestUri(DefaultRpcNode)
    ensures ParseConfig(raw, host) == Success(Configuration(raw.logFile, Contracts, DefaultRpcNode))
  {
  }

  /** A non-empty level outside the table, or `system` itself, is refused
      (the file probe comes first). */
  lemma RejectsLevel(raw: Configuration, host: Host)
    requires raw.logFile == "" || host.logOpens
    requires raw.logLevel != ""
    requires !IsConfigurable(raw.logLevel)
    ensures ParseConfig(raw, host) == Failure(InvalidLogLevel(raw.logLevel))
  {
  }

  /** The log file probe is the first check: a file that cannot be opened
      fails the configuration whatever the other fields hold. */
  lemma LogProbeFirst(raw: Configuration, host: Host)
    requires raw.logFile != "" && !host.logOpens
    ensures ParseConfig(raw, host) == Failure(LogOpenFailed)
  {
  }
}
