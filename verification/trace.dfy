/**
 The decision logic of the `trace` verb, from the flags and the answers of
 its collaborators up to the options the trace session would be started with.
 The session itself (starting it, initialising it, polling it) is where this
 function stops; see module Poll for one step of the poll.
 */
module Trace {
  import opened Common
  import opened Targets
  import opened Ambiguity
  import opened Resolution
  import opened Options

  /** The flags that steer the decision logic. */
  datatype Flags = Flags(uri: string, localPort: int, out: string, api: string)

  /**
   The collaborators' answers: the failure to connect to the server, absent
   when the connection succeeded; the server's local device, absent when the
   server has none (port mode); and the filtered devices with their query
   results (uri mode).
   */
  datatype Collaborators = Collaborators(connectFailure: Option<Error>,
                                         serverLocalDevice: Result<Option<DevicePath>>,
                                         devices: Result<seq<DeviceQuery>>)

  /** The part of the trace options that the decision logic computes. */
  datatype TraceOptions = TraceOptions(device: Option<DevicePath>, app: App, apis: seq<string>, savePath: string)

  /** How the verb ends before a session exists, or the options a session is started with. */
  datatype RunOutcome = ShowUsage | Abort(error: Error) | StartTrace(options: TraceOptions)

  /**
   The target spec: the uri flag; when it is empty and no port is given, the
   single positional argument. None when that argument is missing or not alone.
   */
  function SelectSpec(flags: Flags, args: seq<string>): (r: Option<string>)
    ensures r.None? <==> flags.uri == "" && flags.localPort == 0 && |args| != 1
    ensures r.Some? && (flags.uri != "" || flags.localPort != 0) ==> r.value == flags.uri
    ensures r.Some? && flags.uri == "" && flags.localPort == 0 ==> r.value == args[0]
  {
    if flags.uri == "" && flags.localPort == 0 then
      if |args| != 1 then None else Some(args[0])
    else Some(flags.uri)
  }

  /** What the branch on the port flag settles: trace device, port, resolved uri and display name. */
  datatype Selection = Selection(device: Option<DevicePath>, port: Uint32, uri: string, name: Option<string>)

  /**
   Port mode uses the server's local device and the given port; uri mode
   resolves the spec against the devices and keeps no trace device.
   */
  function SelectTarget(flags: Flags, spec: string, env: Collaborators): (r: Result<Selection>)
    ensures flags.localPort != 0 ==>
              (r.Ok? <==> env.serverLocalDevice.Ok? && env.serverLocalDevice.value.Some?)
    ensures flags.localPort != 0 && env.serverLocalDevice.Err? ==> r == Err(env.serverLocalDevice.error)
    ensures flags.localPort != 0 && env.serverLocalDevice == Ok(None) ==> r == Err(NoLocalDevice)
    ensures r.Ok? && flags.localPort != 0 ==>
              && r.value.device == env.serverLocalDevice.value
              && r.value.port == ToUint32(flags.localPort)
              && r.value.uri == "" && r.value.name.None?
    ensures flags.localPort == 0 ==> (r.Ok? <==> Resolve(spec, env.devices).Ok?)
    ensures flags.localPort == 0 && r.Err? ==> r.error == Resolve(spec, env.devices).error
    ensures r.Ok? && flags.localPort == 0 ==>
              && r.value.device.None? && r.value.port == 0
              && r.value.uri == Resolve(spec, env.devices).value.uri
              && r.value.name == Some(Resolve(spec, env.devices).value.name)
  {
    if flags.localPort != 0 then
      match env.serverLocalDevice
      case Err(e) => Err(e)
      case Ok(None) => Err(NoLocalDevice)
      case Ok(Some(d)) => Ok(Selection(Some(d), ToUint32(flags.localPort), "", None))
    else
      match Resolve(spec, env.devices)
      case Err(e) => Err(e)
      case Ok(c) => Ok(Selection(None, 0, c.uri, Some(c.name)))
  }

  /** The verb's decisions, in the order it takes them. */
  function Run(flags: Flags, args: seq<string>, env: Collaborators): (o: RunOutcome)
    ensures o.StartTrace? ==> ApiNames(flags.api).Ok? && o.options.apis == ApiNames(flags.api).value
    ensures o.StartTrace? ==> o.options.savePath != ""
    ensures o.StartTrace? && flags.out != "" ==> o.options.savePath == flags.out
  {
    if env.connectFailure.Some? then Abort(ConnectFailed(env.connectFailure.value))
    else
    match SelectSpec(flags, args)
    case None => ShowUsage
    case Some(spec) =>
      match SelectTarget(flags, spec, env)
      case Err(e) => Abort(e)
      case Ok(sel) =>
        var out := OutputPath(flags.out, sel.name);
        var app := SelectApp(sel.uri, sel.port);
        match ApiNames(flags.api)
        case Err(e) => Abort(e)
        case Ok(apis) => StartTrace(TraceOptions(sel.device, app, apis, out))
  }

  /**
   A failed connection ends the verb before anything else is decided, with a
   new error that reports the failure to connect and keeps the connection's
   error as its cause.
   */
  lemma RunConnectFailure(flags: Flags, args: seq<string>, env: Collaborators)
    requires env.connectFailure.Some?
    ensures Run(flags, args, env).Abort?
    ensures Run(flags, args, env).error.ConnectFailed?
    ensures Run(flags, args, env).error.cause == env.connectFailure.value
    ensures var m := Message(Run(flags, args, env).error);
            |m| >= |ConnectFailedMessage| && m[..|ConnectFailedMessage|] == ConnectFailedMessage
  {
  }

  /** Usage is shown, and nothing else happens, exactly when the connection succeeded and no spec can be chosen. */
  lemma RunUsage(flags: Flags, args: seq<string>, env: Collaborators)
    ensures Run(flags, args, env) == ShowUsage <==>
              env.connectFailure.None? && flags.uri == "" && flags.localPort == 0 && |args| != 1
  {
  }

  /**
   Port mode: with a local device on the server and a known API, the session
   targets that device and the port (as its low 32 bits), and saves to the
   output flag or the default name. Without a local device it fails.
   */
  lemma RunPortMode(flags: Flags, args: seq<string>, env: Collaborators)
    requires env.connectFailure.None?
    requires flags.localPort != 0
    ensures env.serverLocalDevice == Ok(None) ==> Run(flags, args, env) == Abort(NoLocalDevice)
    ensures env.serverLocalDevice.Err? ==> Run(flags, args, env) == Abort(env.serverLocalDevice.error)
    ensures env.serverLocalDevice.Ok? && env.serverLocalDevice.value.Some? && ApiNames(flags.api).Ok? ==>
              Run(flags, args, env)
              == StartTrace(TraceOptions(env.serverLocalDevice.value, Port(ToUint32(flags.localPort)),
                                         ApiNames(flags.api).value,
                                         if flags.out != "" then flags.out else DefaultOutput))
  {
  }

  /**
   Uri mode: a session is started exactly when the spec resolves to one
   candidate and the API is known; it has no trace device, selects the
   candidate's uri (the port variant with port 0 if that uri is empty) and
   saves to the output flag or the candidate's display name.
   */
  lemma RunUriMode(flags: Flags, args: seq<string>, env: Collaborators)
    requires env.connectFailure.None?
    requires flags.localPort == 0
    requires SelectSpec(flags, args).Some?
    ensures var spec := SelectSpec(flags, args).value;
            Run(flags, args, env).StartTrace? <==> Resolve(spec, env.devices).Ok? && ApiNames(flags.api).Ok?
    ensures var spec := SelectSpec(flags, args).value;
            var o := Run(flags, args, env);
            o.StartTrace? ==>
              var c := Resolve(spec, env.devices).value;
              && o.options.device.None?
              && (c.uri != "" ==> o.options.app == Uri(c.uri))
              && (c.uri == "" ==> o.options.app == Port(0))
              && o.options.savePath == (if flags.out != "" then flags.out else c.name + CaptureExtension)
  {
  }

  /**
   A failed resolution (no device, not found, ambiguous, or a collaborator
   error) ends the verb with that error before any session exists, whatever
   the API flag says.
   */
  lemma RunResolutionFailure(flags: Flags, args: seq<string>, env: Collaborators)
    requires env.connectFailure.None?
    requires flags.localPort == 0
    requires SelectSpec(flags, args).Some?
    requires Resolve(SelectSpec(flags, args).value, env.devices).Err?
    ensures Run(flags, args, env) == Abort(Resolve(SelectSpec(flags, args).value, env.devices).error)
  {
  }

  /** An unknown API value ends the verb before any session exists; once a target is selected, with that error. */
  lemma RunUnknownApi(flags: Flags, args: seq<string>, env: Collaborators)
    requires flags.api != "vulkan" && flags.api != "gles" && flags.api != ""
    ensures !Run(flags, args, env).StartTrace?
    ensures env.connectFailure.None? && SelectSpec(flags, args).Some? && SelectTarget(flags, SelectSpec(flags, args).value, env).Ok? ==>
              Run(flags, args, env) == Abort(UnknownApi(flags.api))
  {
  }

  /**
   The selector of a started session is the uri variant exactly when a
   non-empty uri was resolved, and the port variant otherwise.
   */
  lemma RunAppSelector(flags: Flags, args: seq<string>, env: Collaborators)
    requires Run(flags, args, env).StartTrace?
    ensures var app := Run(flags, args, env).options.app;
            var sel := SelectTarget(flags, SelectSpec(flags, args).value, env);
            && sel.Ok?
            && (app.Uri? <==> flags.localPort == 0 && sel.value.uri != "")
            && (app.Uri? ==> app.uri == sel.value.uri)
            && (app.Port? ==> app.port == ToUint32(flags.localPort))
  {
  }
}
