/**
  The live configuration setters of the agent and the client
  (config/agent_live_change.go, config/client_live_change.go). Each checks that
  it got exactly one argument, then stores it in one field. Persisting the
  configuration to disk is not modelled (its result is ignored by the source).
 */
module Config {
  import opened Wrappers

  /** The argument-count check every setter starts with; `missing` is the setter's own message. */
  function ArgCountError(args: seq<string>, missing: string): (err: Option<string>)
    ensures err.None? <==> |args| == 1
    ensures |args| == 0 ==> err == Some(missing)
    ensures |args| > 1 ==> err == Some("too many arguments")
  {
    if |args| == 0 then Some(missing)
    else if |args| > 1 then Some("too many arguments")
    else None
  }

  /** The agent fields a setter can change. */
  datatype AgentField = ServerAddress | AuthToken | MachineName

  function MissingMessage(f: AgentField): string {
    match f
    case ServerAddress => "missing address"
    case AuthToken => "missing token"
    case MachineName => "missing machine name"
  }

  /** The values held by an `AgentConfig`. */
  datatype AgentSettings = AgentSettings(serverAddress: string, machineName: string, loggingLevel: string,
                                         authToken: string, machineState: bool)

  function AgentGet(s: AgentSettings, f: AgentField): string {
    match f
    case ServerAddress => s.serverAddress
    case AuthToken => s.authToken
    case MachineName => s.machineName
  }

  /** The settings after a setter call, and the error it returns. */
  datatype SetOutcome<S> = SetOutcome(settings: S, err: Option<string>)

  /** What `AgentSetServerAddress`, `AgentSetAuthToken` and `AgentSetMachineName` do to the agent settings. */
  function AgentSet(s: AgentSettings, f: AgentField, args: seq<string>): (r: SetOutcome<AgentSettings>)
    ensures r.err == ArgCountError(args, MissingMessage(f))
    ensures r.err.Some? ==> r.settings == s
    ensures r.err.None? ==> AgentGet(r.settings, f) == args[0]
    ensures forall g: AgentField :: g != f ==> AgentGet(r.settings, g) == AgentGet(s, g)
    ensures r.settings.loggingLevel == s.loggingLevel && r.settings.machineState == s.machineState
  {
    var err := ArgCountError(args, MissingMessage(f));
    if err.Some? then SetOutcome(s, err)
    else
      match f
      case ServerAddress => SetOutcome(s.(serverAddress := args[0]), None)
      case AuthToken => SetOutcome(s.(authToken := args[0]), None)
      case MachineName => SetOutcome(s.(machineName := args[0]), None)
  }

  /** Setting the same value twice is setting it once. */
  lemma AgentSetIdempotent(s: AgentSettings, f: AgentField, args: seq<string>)
    ensures AgentSet(AgentSet(s, f, args).settings, f, args) == AgentSet(s, f, args)
  {
  }

  /** `AgentConfig`; its mutex is not modelled. */
  class AgentConfig {
    var serverAddress: string
    var machineName: string
    var loggingLevel: string
    var authToken: string
    var machineState: bool

    function Settings(): AgentSettings
      reads this
    {
      AgentSettings(serverAddress, machineName, loggingLevel, authToken, machineState)
    }

    constructor (initial: AgentSettings)
      ensures Settings() == initial
    {
      serverAddress := initial.serverAddress;
      machineName := initial.machineName;
      loggingLevel := initial.loggingLevel;
      authToken := initial.authToken;
      machineState := initial.machineState;
    }

    /** `AgentSetServerAddress`. */
    method SetServerAddress(args: seq<string>) returns (err: Option<string>)
      modifies this
      ensures Settings() == AgentSet(old(Settings()), ServerAddress, args).settings
      ensures err == AgentSet(old(Settings()), ServerAddress, args).err
    {
      if |args| == 0 {
        return Some("missing address");
      } else if |args| > 1 {
        return Some("too many arguments");
      }
      serverAddress := args[0];
      err := None;
    }

    /** `AgentSetAuthToken`. */
    method SetAuthToken(args: seq<string>) returns (err: Option<string>)
      modifies this
      ensures Settings() == AgentSet(old(Settings()), AuthToken, args).settings
      ensures err == AgentSet(old(Settings()), AuthToken, args).err
    {
      if |args| == 0 {
        return Some("missing token");
      } else if |args| > 1 {
        return Some("too many arguments");
      }
      authToken := args[0];
      err := None;
    }

    /** `AgentSetMachineName`. */
    method SetMachineName(args: seq<string>) returns (err: Option<string>)
      modifies this
      ensures Settings() == AgentSet(old(Settings()), MachineName, args).settings
      ensures err == AgentSet(old(Settings()), MachineName, args).err
    {
      if |args| == 0 {
        return Some("missing machine name");
      } else if |args| > 1 {
        return Some("too many arguments");
      }
      machineName := args[0];
      err := None;
    }
  }

  /** The values held by a `ClientConfig`. */
  datatype ClientSettings = ClientSettings(serverAddress: string, machineState: bool,
                                           consulState: bool, consulAddress: string, consulPort: string,
                                           nomadState: bool, nomadAddress: string, nomadPort: string)

  /** What `ClientSetServerAddress` does to the client settings. */
  function ClientSet(s: ClientSettings, args: seq<string>): (r: SetOutcome<ClientSettings>)
    ensures r.err == ArgCountError(args, "missing address")
    ensures r.err.Some? ==> r.settings == s
    ensures r.err.None? ==> r.settings == s.(serverAddress := args[0])
  {
    var err := ArgCountError(args, "missing address");
    if err.Some? then SetOutcome(s, err) else SetOutcome(s.(serverAddress := args[0]), None)
  }

  lemma ClientSetIdempotent(s: ClientSettings, args: seq<string>)
    ensures ClientSet(ClientSet(s, args).settings, args) == ClientSet(s, args)
  {
  }

  /** `ClientConfig`; its mutex is not modelled. */
  class ClientConfig {
    var serverAddress: string
    var machineState: bool
    var consulState: bool
    var consulAddress: string
    var consulPort: string
    var nomadState: bool
    var nomadAddress: string
    var nomadPort: string

    function Settings(): ClientSettings
      reads this
    {
      ClientSettings(serverAddress, machineState, consulState, consulAddress, consulPort,
                     nomadState, nomadAddress, nomadPort)
    }

    constructor (initial: ClientSettings)
      ensures Settings() == initial
    {
      serverAddress := initial.serverAddress;
      machineState := initial.machineState;
      consulState := initial.consulState;
      consulAddress := initial.consulAddress;
      consulPort := initial.consulPort;
      nomadState := initial.nomadState;
      nomadAddress := initial.nomadAddress;
      nomadPort := initial.nomadPort;
    }

    /** `ClientSetServerAddress`. */
    method SetServerAddress(args: seq<string>) returns (err: Option<string>)
      modifies this
      ensures Settings() == ClientSet(old(Settings()), args).settings
      ensures err == ClientSet(old(Settings()), args).err
    {
      if |args| == 0 {
        return Some("missing address");
      } else if |args| > 1 {
        return Some("too many arguments");
      }
      serverAddress := args[0];
      err := None;
    }
  }
}
