/**
  The agent's local control channel (agent/ipc.go, agent/config.go): the CLI
  encodes a configuration instruction as `instruction=arg1,arg2` (or `stop`),
  the agent daemon decodes it and runs the matching setter. The Unix socket is
  not modelled: a received message and the results of the CLI's exchanges with
  the daemon are parameters.
 */
module Agent {
  import opened Wrappers
  import opened GoStrings
  import Config

  /** The handlers of `instructionMap`. */
  datatype Instruction = SetServerAddress | SetAuthToken | SetMachineName

  function InstructionName(i: Instruction): string {
    match i
    case SetServerAddress => "server-address"
    case SetAuthToken => "auth-token"
    case SetMachineName => "machine-name"
  }

  /** Lookup in `instructionMap`, whose keys are exactly the three instruction names. */
  function LookupInstruction(name: string): (r: Option<Instruction>)
    ensures r.Some? <==> name == "server-address" || name == "auth-token" || name == "machine-name"
    ensures r.Some? ==> InstructionName(r.value) == name
  {
    if name == "server-address" then Some(SetServerAddress)
    else if name == "auth-token" then Some(SetAuthToken)
    else if name == "machine-name" then Some(SetMachineName)
    else None
  }

  /** The agent field each handler sets. */
  function FieldOf(i: Instruction): Config.AgentField {
    match i
    case SetServerAddress => Config.ServerAddress
    case SetAuthToken => Config.AuthToken
    case SetMachineName => Config.MachineName
  }

  /**
    How `processRequest` reads a message: a call of a known handler with its
    arguments, an unknown instruction, or a known one without `=`, for which the
    source indexes past the end of the split message and panics.
   */
  datatype Request =
    | Call(instruction: Instruction, args: seq<string>)
    | UnknownInstruction(name: string)
    | MissingArguments(name: string)

  function ParseRequest(message: string): (r: Request)
    ensures r.UnknownInstruction? <==> LookupInstruction(Split(message, '=')[0]).None?
    ensures r.MissingArguments? <==> LookupInstruction(Split(message, '=')[0]).Some? && '=' !in message
    ensures r.Call? ==> |r.args| >= 1 && InstructionName(r.instruction) == Split(message, '=')[0]
  {
    var parts := Split(message, '=');
    var handler := LookupInstruction(parts[0]);
    if handler.None? then UnknownInstruction(parts[0])
    else if |parts| < 2 then (SplitCountsSeparator(message, '='); MissingArguments(parts[0]))
    else (SplitCountsSeparator(message, '='); Call(handler.value, Split(parts[1], ',')))
  }

  /** A string splits into more than one piece exactly when it contains the separator. */
  lemma {:induction false} SplitCountsSeparator(s: string, sep: char)
    ensures |Split(s, sep)| > 1 <==> sep in s
    decreases |s|
  {
    if |s| > 0 {
      SplitCountsSeparator(s[1..], sep);
      assert s == [s[0]] + s[1..];
    }
  }

  /** The message `DoConfigInstruction` sends for an instruction and its arguments. */
  function ConfigMessage(instruction: string, args: seq<string>): string {
    if instruction == "unregister" then "stop" else instruction + "=" + Join(args, ',')
  }

  lemma {:induction false} JoinAvoids(parts: seq<string>, sep: char, c: char)
    requires c != sep
    requires forall i :: 0 <= i < |parts| ==> c !in parts[i]
    ensures c !in Join(parts, sep)
    decreases |parts|
  {
    if |parts| > 1 {
      JoinAvoids(parts[1..], sep, c);
    }
  }

  /**
    Round trip: the daemon decodes the CLI's message for a known instruction into
    a call of that instruction's handler with exactly the CLI's arguments, when
    there is at least one and none contains `,` or `=`.
   */
  lemma ConfigMessageRoundTrip(i: Instruction, args: seq<string>)
    requires |args| >= 1
    requires forall k :: 0 <= k < |args| ==> ',' !in args[k] && '=' !in args[k]
    ensures ParseRequest(ConfigMessage(InstructionName(i), args)) == Call(i, args)
  {
    var name := InstructionName(i);
    var joined := Join(args, ',');
    JoinAvoids(args, ',', '=');
    SplitNoSeparator(joined, '=');
    SplitAtFirst(name, '=', joined);
    assert ConfigMessage(name, args) == name + ['='] + joined;
    SplitJoin(args, ',');
  }

  /** An instruction sent without arguments reaches its handler with one empty argument. */
  lemma ConfigMessageNoArguments(i: Instruction)
    ensures ParseRequest(ConfigMessage(InstructionName(i), [])) == Call(i, [""])
  {
    var name := InstructionName(i);
    SplitAtFirst(name, '=', "");
    assert ConfigMessage(name, []) == name + ['='] + "";
  }

  /** Whatever follows a second `=` is dropped. */
  lemma ParseDropsAfterSecondEquals(i: Instruction, first: string, rest: string)
    requires '=' !in first
    ensures ParseRequest(InstructionName(i) + "=" + first + "=" + rest) == Call(i, Split(first, ','))
  {
    var name := InstructionName(i);
    var tail := first + ['='] + rest;
    var message := name + ['='] + tail;
    assert message == InstructionName(i) + "=" + first + "=" + rest;
    SplitAtFirst(first, '=', rest);
    SplitAtFirst(name, '=', tail);
    var parts := Split(message, '=');
    assert parts == [name] + ([first] + Split(rest, '='));
    assert parts[0] == name && parts[1] == first && |parts| >= 2;
  }

  /** The outcome of `processRequest`. */
  datatype Processed = Response(text: string) | Failure(error: string) | IndexPanic

  /** Calls the handler of `i` with `args`. */
  method RunHandler(i: Instruction, args: seq<string>, agent: Config.AgentConfig) returns (err: Option<string>)
    modifies agent
    ensures agent.Settings() == Config.AgentSet(old(agent.Settings()), FieldOf(i), args).settings
    ensures err == Config.AgentSet(old(agent.Settings()), FieldOf(i), args).err
  {
    match i
    case SetServerAddress => err := agent.SetServerAddress(args);
    case SetAuthToken => err := agent.SetAuthToken(args);
    case SetMachineName => err := agent.SetMachineName(args);
  }

  /** `processRequest`, with the setters acting on `agent`. */
  method ProcessRequest(message: string, agent: Config.AgentConfig) returns (r: Processed)
    modifies agent
    ensures ParseRequest(message).UnknownInstruction? ==>
      r == Failure("unknown instruction: " + ParseRequest(message).name) && agent.Settings() == old(agent.Settings())
    ensures ParseRequest(message).MissingArguments? ==> r == IndexPanic && agent.Settings() == old(agent.Settings())
    ensures ParseRequest(message).Call? ==>
      var call := ParseRequest(message);
      var outcome := Config.AgentSet(old(agent.Settings()), FieldOf(call.instruction), call.args);
      agent.Settings() == outcome.settings &&
      r == (if outcome.err.Some? then Failure(outcome.err.value) else Response("ok"))
  {
    ghost var before := agent.Settings();
    var parts := Split(message, '=');
    var handler := LookupInstruction(parts[0]);
    if handler.Some? {
      if |parts| < 2 {
        SplitCountsSeparator(message, '=');
        return IndexPanic;
      }
      var args := Split(parts[1], ',');
      var argInterfaces := new string[|args|];
      for k := 0 to |args|
        modifies argInterfaces
        invariant argInterfaces[..k] == args[..k]
      {
        argInterfaces[k] := args[k];
      }
      assert argInterfaces[..] == args;
      assert agent.Settings() == before;
      assert ParseRequest(message) == Call(handler.value, args);
      var err := RunHandler(handler.value, argInterfaces[..], agent);
      if err.Some? {
        return Failure(err.value);
      }
      return Response("ok");
    }
    return Failure("unknown instruction: " + parts[0]);
  }

  /** What `handleRequest` writes back: a reply, nothing, or the agent crashes. */
  datatype Answer = Reply(text: string) | NoReply | Crash

  /** The agent daemon: its `stop` flag and the configuration its setters change. */
  class Daemon {
    var stop: bool
    const agent: Config.AgentConfig

    constructor (agent: Config.AgentConfig)
      ensures this.agent == agent && !stop
    {
      this.agent := agent;
      stop := false;
    }

    /**
      `handleRequest` for the message read from a connection (`Err` when the
      read failed). "ping" is answered "pong", "stop" raises the stop flag and is
      answered "ok", anything else goes to `ProcessRequest`, and nothing is
      written when that fails.
     */
    method HandleRequest(received: Result<string>) returns (answer: Answer)
      modifies this, agent
      ensures received.Err? ==> answer == NoReply && stop == old(stop) && agent.Settings() == old(agent.Settings())
      ensures received == Ok("ping") ==> answer == Reply("pong") && stop == old(stop) && agent.Settings() == old(agent.Settings())
      ensures received == Ok("stop") ==> answer == Reply("ok") && stop && agent.Settings() == old(agent.Settings())
      ensures received.Ok? && received.value != "ping" && received.value != "stop" ==>
        stop == old(stop) &&
        match ParseRequest(received.value)
        case UnknownInstruction(_) => answer == NoReply && agent.Settings() == old(agent.Settings())
        case MissingArguments(_) => answer == Crash && agent.Settings() == old(agent.Settings())
        case Call(i, args) =>
          var outcome := Config.AgentSet(old(agent.Settings()), FieldOf(i), args);
          agent.Settings() == outcome.settings && answer == (if outcome.err.Some? then NoReply else Reply("ok"))
    {
      if received.Err? {
        return NoReply;
      }
      var recvMessage := received.value;
      if recvMessage == "ping" {
        answer := Reply("pong");
      } else if recvMessage == "stop" {
        stop := true;
        answer := Reply("ok");
      } else {
        var resp := ProcessRequest(recvMessage, agent);
        match resp
        case Failure(_) => answer := NoReply;
        case IndexPanic => answer := Crash;
        case Response(text) => answer := Reply(text);
      }
    }
  }

  /** Why a socket operation failed; only refused connections and missing sockets are told apart. */
  datatype IoErrorKind = ConnRefused | NotExist | OtherIoError
  datatype IoError = IoError(kind: IoErrorKind, text: string)

  /** The result of `sendMessageToDaemon`: the daemon's reply, or the socket error. */
  datatype Exchange = Replied(text: string) | IoFailed(error: IoError)

  /** Why `testIPCSocket` failed. */
  datatype PingError = Unreachable(error: IoError) | UnexpectedResponse(text: string)

  /** `testIPCSocket`, given the result of sending "ping". */
  function TestIpcSocket(ping: Exchange): (r: Option<PingError>)
    ensures r.None? <==> ping == Replied("pong")
    ensures ping.IoFailed? ==> r == Some(Unreachable(ping.error))
  {
    match ping
    case IoFailed(e) => Some(Unreachable(e))
    case Replied(text) => if text != "pong" then Some(UnexpectedResponse(text)) else None
  }

  function PingErrorText(e: PingError): string {
    match e
    case Unreachable(io) => io.text
    case UnexpectedResponse(text) => "unexpected response: " + text
  }

  /**
    What `DoConfigInstruction` did: the message it applied locally with
    `processRequest`, the one it sent to the daemon, and the error it returned.
   */
  datatype ConfigOutcome = ConfigOutcome(applied: Option<string>, sent: Option<string>, err: Option<string>)

  /** `DoConfigInstruction`, given the result of the ping and of sending the message. */
  function DoConfigInstruction(instruction: string, args: seq<string>, ping: Exchange, send: Exchange): (r: ConfigOutcome)
    ensures r.applied.Some? <==>
      ping.IoFailed? && ping.error.kind in {ConnRefused, NotExist} && instruction != "unregister"
    ensures r.applied.Some? ==> r.applied.value == ConfigMessage(instruction, args) && r.err.None?
    ensures r.sent.Some? <==> ping == Replied("pong")
    ensures r.sent.Some? ==> r.sent.value == ConfigMessage(instruction, args)
    ensures r.err.None? <==> r.applied.Some? || (ping == Replied("pong") && send == Replied("ok"))
    ensures ping != Replied("pong") && r.applied.None? ==>
      r.err == Some("failed to start IPC client: " + PingErrorText(TestIpcSocket(ping).value))
    ensures ping == Replied("pong") && send.IoFailed? ==>
      r.err == Some("failed to send instruction to daemon: " + send.error.text)
    ensures ping == Replied("pong") && send.Replied? && send.text != "ok" ==>
      r.err == Some("unexpected response from daemon: " + send.text)
  {
    var err := TestIpcSocket(ping);
    var message := ConfigMessage(instruction, args);
    if err.Some? then
      if err.value.Unreachable? && err.value.error.kind in {ConnRefused, NotExist} && instruction != "unregister" then
        ConfigOutcome(Some(message), None, None)
      else
        ConfigOutcome(None, None, Some("failed to start IPC client: " + PingErrorText(err.value)))
    else
      match send
      case IoFailed(e) => ConfigOutcome(None, Some(message), Some("failed to send instruction to daemon: " + e.text))
      case Replied(resp) =>
        if resp != "ok" then ConfigOutcome(None, Some(message), Some("unexpected response from daemon: " + resp))
        else ConfigOutcome(None, Some(message), None)
  }

  /** "unregister" is sent as the daemon's "stop" message, which the daemon answers "ok". */
  lemma UnregisterStopsDaemon(args: seq<string>, send: Exchange)
    ensures DoConfigInstruction("unregister", args, Replied("pong"), send).sent == Some("stop")
  {
  }
}
