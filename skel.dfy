/**
 * The plugin side of the CNI execution protocol (pkg/skel/skel.go): turn the
 * environment and standard input into a command and its arguments, check
 * them, reconcile the configuration's CNI version with the plugin's, and call
 * the plugin's ADD, CHECK or DEL handler.
 *
 * Each step is given twice: as a function of its inputs (the specification,
 * which the lemmas in skel_properties.dfy are about) and, where the Go code
 * changes state step by step, as a method of the class `Dispatcher` proved to
 * compute exactly that function.
 */
module Skel {
  import opened Wrappers
  import opened Types
  import opened Version

  // ---------------------------------------------------------------------------
  // Data model
  // ---------------------------------------------------------------------------

  /** `CmdArgs`: everything a handler is given. */
  datatype CmdArgs = CmdArgs(
    containerID: string,
    netns: string,
    ifName: string,
    args: string,
    path: string,
    stdinData: seq<byte>)

  /** A successfully extracted request: the command and its arguments. */
  datatype Request = Request(cmd: string, cmdArgs: CmdArgs)

  /** The dispatcher's `Stdin`: a reader whose `ReadAll` yields these bytes, or fails. */
  datatype Reader = Readable(data: seq<byte>) | Broken(reason: string)

  /** `bytes.NewReader(nil)`. */
  const EmptyReader: Reader := Readable([])

  /** What `json.Unmarshal` into `struct { Name string }` gives: an error, or the name ("" when absent). */
  datatype ConfigParse = Unparseable(reason: string) | Parsed(name: string)

  /** The package-level functions the skeleton calls: `json.Unmarshal` and `version.GreaterThanOrEqualTo`. */
  datatype Library = Library(unmarshal: seq<byte> -> ConfigParse, greaterThanOrEqualTo: VersionOrder)

  /** What a handler returns: nil, an error that is already a `*types.Error`, or any other error (its `Error()` text). */
  datatype HandlerOutcome = Ok | Typed(err: Error) | Plain(msg: string)

  /** The caller's `cmdAdd`, `cmdCheck` and `cmdDel`. */
  datatype Handlers = Handlers(add: CmdArgs -> HandlerOutcome, check: CmdArgs -> HandlerOutcome, del: CmdArgs -> HandlerOutcome)

  /** `t.Getenv(name)` over an environment snapshot: an unset variable reads as "". */
  function Getenv(env: map<string, string>, name: string): string {
    if name in env then env[name] else ""
  }

  // ---------------------------------------------------------------------------
  // Environment extraction (getCmdArgsFromEnv)
  // ---------------------------------------------------------------------------

  /** The six variables of the execution protocol. */
  datatype VarName = Command | ContainerId | Netns | IfName | Args | Path {
    /** The variable's name in the environment. */
    function Text(): string {
      match this
      case Command => "CNI_COMMAND"
      case ContainerId => "CNI_CONTAINERID"
      case Netns => "CNI_NETNS"
      case IfName => "CNI_IFNAME"
      case Args => "CNI_ARGS"
      case Path => "CNI_PATH"
    }
  }

  /** The value of a protocol variable in the environment. */
  function Value(env: map<string, string>, n: VarName): string {
    Getenv(env, n.Text())
  }

  /** One row of the `vars` table: a variable and the commands that require it. */
  datatype EnvVar = EnvVar(name: VarName, reqForCmd: map<string, bool>)

  /** The six-row table, in the order the variables are read and reported. */
  const Vars: seq<EnvVar> := [
    EnvVar(Command, map["ADD" := true, "CHECK" := true, "DEL" := true]),
    EnvVar(ContainerId, map["ADD" := true, "CHECK" := true, "DEL" := true]),
    EnvVar(Netns, map["ADD" := true, "CHECK" := true, "DEL" := false]),
    EnvVar(IfName, map["ADD" := true, "CHECK" := true, "DEL" := true]),
    EnvVar(Args, map["ADD" := false, "CHECK" := false, "DEL" := false]),
    EnvVar(Path, map["ADD" := true, "CHECK" := true, "DEL" := true])
  ]

  /** `v.reqForCmd[cmd]`: a command the row does not mention reads as false. */
  predicate Required(v: EnvVar, cmd: string) {
    cmd in v.reqForCmd && v.reqForCmd[cmd]
  }

  /** The row is reported missing: its value is empty and it is required for `cmd` or is the command itself. */
  predicate IsMissing(v: EnvVar, env: map<string, string>, cmd: string) {
    Value(env, v.name) == "" && (Required(v, cmd) || v.name == Command)
  }

  /** The names of the missing rows of `vars`, in table order. */
  function MissingIn(vars: seq<EnvVar>, env: map<string, string>, cmd: string): seq<VarName> {
    if vars == [] then []
    else (if IsMissing(vars[0], env, cmd) then [vars[0].name] else []) + MissingIn(vars[1..], env, cmd)
  }

  /** Scanning one more row appends that row's name exactly when it is missing. */
  lemma {:induction false} MissingInSnoc(vars: seq<EnvVar>, v: EnvVar, env: map<string, string>, cmd: string)
    ensures MissingIn(vars + [v], env, cmd)
         == MissingIn(vars, env, cmd) + (if IsMissing(v, env, cmd) then [v.name] else [])
  {
    var rv := if IsMissing(v, env, cmd) then [v.name] else [];
    if vars == [] {
      assert [v][1..] == [];
    } else {
      var r0 := if IsMissing(vars[0], env, cmd) then [vars[0].name] else [];
      var m1 := MissingIn(vars[1..], env, cmd);
      assert (vars + [v])[0] == vars[0];
      assert (vars + [v])[1..] == vars[1..] + [v];
      calc {
        MissingIn(vars + [v], env, cmd);
        r0 + MissingIn(vars[1..] + [v], env, cmd);
        { MissingInSnoc(vars[1..], v, env, cmd); }
        r0 + (m1 + rv);
        (r0 + m1) + rv;
        MissingIn(vars, env, cmd) + rv;
      }
    }
  }

  /** `strings.Join`. */
  function Join(parts: seq<string>, sep: string): string {
    if |parts| == 0 then ""
    else if |parts| == 1 then parts[0]
    else parts[0] + sep + Join(parts[1..], sep)
  }

  /** The error message naming the missing variables, comma-separated. */
  function MissingMessage(missing: seq<VarName>): string {
    "required env variables [" + Join(seq(|missing|, i requires 0 <= i < |missing| => missing[i].Text()), ",") + "] missing"
  }

  /** What extraction leaves in the dispatcher's `Stdin` field, and what it returns. */
  datatype Extraction = Extraction(stdin: Reader, result: Result<Request, Error>)

  /** `getCmdArgsFromEnv`, as a function of the environment and the current reader. */
  function Extract(env: map<string, string>, stdin: Reader): (x: Extraction)
    ensures x.result.Success? <==>
      MissingIn(Vars, env, Value(env, Command)) == [] && (Value(env, Command) == "VERSION" || stdin.Readable?)
    ensures x.result.Success? ==>
      && x.stdin.Readable?
      && x.result.value == Request(Value(env, Command),
           CmdArgs(Value(env, ContainerId), Value(env, Netns), Value(env, IfName), Value(env, Args), Value(env, Path),
                   x.stdin.data))
    ensures x.stdin == stdin || (x.stdin == EmptyReader && Value(env, Command) == "VERSION")
  {
    var cmd := Value(env, Command);
    var missing := MissingIn(Vars, env, cmd);
    if |missing| > 0 then
      Extraction(stdin, Failure(Error(ErrMissingEnvironmentVariables, MissingMessage(missing), "")))
    else
      var reader := if cmd == "VERSION" then EmptyReader else stdin;
      match reader
      case Broken(reason) =>
        Extraction(reader, Failure(Error(ErrFailedIO, "error reading from stdin: " + reason, "")))
      case Readable(data) =>
        var cmdArgs := CmdArgs(Value(env, ContainerId), Value(env, Netns), Value(env, IfName),
                               Value(env, Args), Value(env, Path), data);
        Extraction(reader, Success(Request(cmd, cmdArgs)))
  }

  // ---------------------------------------------------------------------------
  // Config validation (validateConfig)
  // ---------------------------------------------------------------------------

  /** `validateConfig` on the result of unmarshalling the configuration. */
  function ValidateConfig(conf: ConfigParse): (r: Option<Error>)
    ensures r.None? <==> conf.Parsed? && conf.name != ""
    ensures conf.Unparseable? ==> r == Some(Error(ErrFailedDecode, "error unmarshall network config: " + conf.reason, ""))
    ensures conf.Parsed? ==> r.None? || r.value == Error(ErrInvalidNetworkConfig, "missing network name", "")
  {
    match conf
    case Unparseable(reason) => Some(Error(ErrFailedDecode, "error unmarshall network config: " + reason, ""))
    case Parsed(name) => if name == "" then Some(Error(ErrInvalidNetworkConfig, "missing network name", "")) else None
  }

  // ---------------------------------------------------------------------------
  // Version-checked handler call (checkVersionAndCall)
  // ---------------------------------------------------------------------------

  /** What the skeleton returns for a handler's result: a typed error unchanged, any other error wrapped once. */
  function WrapHandlerError(outcome: HandlerOutcome): (r: Option<Error>)
    ensures r.None? <==> outcome.Ok?
    ensures outcome.Typed? ==> r == Some(outcome.err)
    ensures outcome.Plain? ==> r == Some(Error(ErrFailedPluginCall, outcome.msg, ""))
  {
    match outcome
    case Ok => None
    case Typed(e) => Some(e)
    case Plain(msg) => Some(Error(ErrFailedPluginCall, msg, ""))
  }

  /** `checkVersionAndCall`: decode the configuration's version, reconcile it, then call the handler. */
  function CheckVersionAndCall(decoder: ConfigDecoder, reconciler: Reconciler, cmdArgs: CmdArgs,
                               info: PluginInfo, toCall: CmdArgs -> HandlerOutcome): (r: Option<Error>)
    ensures r.None? <==>
      decoder(cmdArgs.stdinData).Success? && reconciler(decoder(cmdArgs.stdinData).value, info).None? && toCall(cmdArgs).Ok?
    ensures r.Some? ==>
      || r.value.code == ErrFailedDecode || r.value.code == ErrIncompatibleCNIVersion || r.value.code == ErrFailedPluginCall
      || toCall(cmdArgs) == Typed(r.value)
  {
    match decoder(cmdArgs.stdinData)
    case Failure(msg) => Some(Error(ErrFailedDecode, msg, ""))
    case Success(configVersion) =>
      match reconciler(configVersion, info)
      case Some(details) => Some(Error(ErrIncompatibleCNIVersion, "incompatible CNI versions", details))
      case None => WrapHandlerError(toCall(cmdArgs))
  }

  // ---------------------------------------------------------------------------
  // CHECK routing
  // ---------------------------------------------------------------------------

  /** The lowest configuration version for which CHECK is defined. */
  const CheckFloor: string := "0.4.0"

  /** How the scan over the supported versions ends. */
  datatype Scan = Found(index: nat) | CompareFailed(reason: string) | NoMatch

  /**
   * The first supported version, from index `from` on and in the plugin's own
   * order, that is >= `configVersion`; the scan stops at the first comparison
   * that fails.
   */
  function FirstAtLeast(gte: VersionOrder, versions: seq<string>, configVersion: string, from: nat): (s: Scan)
    requires from <= |versions|
    decreases |versions| - from
    ensures s.Found? ==>
      from <= s.index < |versions| && gte(versions[s.index], configVersion) == Success(true) &&
      forall j :: from <= j < s.index ==> gte(versions[j], configVersion) == Success(false)
    ensures s.CompareFailed? ==>
      exists i :: from <= i < |versions| && gte(versions[i], configVersion) == Failure(s.reason) &&
        forall j :: from <= j < i ==> gte(versions[j], configVersion) == Success(false)
    ensures s.NoMatch? <==>
      forall j :: from <= j < |versions| ==> gte(versions[j], configVersion) == Success(false)
  {
    if from == |versions| then NoMatch
    else
      match gte(versions[from], configVersion)
      case Failure(msg) => CompareFailed(msg)
      case Success(atLeast) => if atLeast then Found(from) else FirstAtLeast(gte, versions, configVersion, from + 1)
  }

  /** The CHECK branch of `pluginMain`. */
  function CheckCommand(decoder: ConfigDecoder, reconciler: Reconciler, lib: Library, cmdArgs: CmdArgs,
                        info: PluginInfo, cmdCheck: CmdArgs -> HandlerOutcome): (r: Option<Error>)
    ensures r.None? <==>
      && decoder(cmdArgs.stdinData).Success?
      && lib.greaterThanOrEqualTo(decoder(cmdArgs.stdinData).value, CheckFloor) == Success(true)
      && FirstAtLeast(lib.greaterThanOrEqualTo, info.supportedVersions, decoder(cmdArgs.stdinData).value, 0).Found?
      && CheckVersionAndCall(decoder, reconciler, cmdArgs, info, cmdCheck).None?
  {
    match decoder(cmdArgs.stdinData)
    case Failure(msg) => Some(Error(ErrFailedDecode, msg, ""))
    case Success(configVersion) =>
      match lib.greaterThanOrEqualTo(configVersion, CheckFloor)
      case Failure(msg) => Some(Error(ErrFailedDecode, msg, ""))
      case Success(allowed) =>
        if !allowed then Some(Error(ErrIncompatibleCNIVersion, "config version does not allow CHECK", ""))
        else
          match FirstAtLeast(lib.greaterThanOrEqualTo, info.supportedVersions, configVersion, 0)
          case Found(_) => CheckVersionAndCall(decoder, reconciler, cmdArgs, info, cmdCheck)
          case CompareFailed(msg) => Some(Error(ErrFailedDecode, msg, ""))
          case NoMatch => Some(Error(ErrIncompatibleCNIVersion, "plugin version does not allow CHECK", ""))
  }

  // ---------------------------------------------------------------------------
  // Dispatch (pluginMain)
  // ---------------------------------------------------------------------------

  /** What routing a validated request writes to standard output, and its error. */
  datatype Routed = Routed(stdout: string, err: Option<Error>)

  /** The `switch cmd` of `pluginMain`. */
  function Route(req: Request, decoder: ConfigDecoder, reconciler: Reconciler, lib: Library,
                 handlers: Handlers, info: PluginInfo): (r: Routed)
    ensures r.stdout != "" ==> req.cmd == "VERSION"
    ensures req.cmd == "VERSION" ==> r.stdout == info.encoding.written && (r.err.None? <==> info.encoding.failure.None?)
    ensures r.err.None? ==> req.cmd == "ADD" || req.cmd == "CHECK" || req.cmd == "DEL" || req.cmd == "VERSION"
  {
    if req.cmd == "ADD" then
      Routed("", CheckVersionAndCall(decoder, reconciler, req.cmdArgs, info, handlers.add))
    else if req.cmd == "CHECK" then
      Routed("", CheckCommand(decoder, reconciler, lib, req.cmdArgs, info, handlers.check))
    else if req.cmd == "DEL" then
      Routed("", CheckVersionAndCall(decoder, reconciler, req.cmdArgs, info, handlers.del))
    else if req.cmd == "VERSION" then
      var enc := info.encoding;
      Routed(enc.written, if enc.failure.Some? then Some(Error(ErrFailedEncode, enc.failure.value, "")) else None)
    else
      Routed("", Some(Error(ErrUnknownCommand, "unknown CNI_COMMAND: " + req.cmd, "")))
  }

  /** A request that extraction produced: validated unless it is VERSION, then routed. */
  function Serve(req: Request, decoder: ConfigDecoder, reconciler: Reconciler, lib: Library,
                 handlers: Handlers, info: PluginInfo): (r: Routed)
    ensures r.err.None? ==> req.cmd == "VERSION" || (lib.unmarshal(req.cmdArgs.stdinData).Parsed? && lib.unmarshal(req.cmdArgs.stdinData).name != "")
    ensures r.stdout != "" ==> req.cmd == "VERSION"
  {
    var invalid := if req.cmd != "VERSION" then ValidateConfig(lib.unmarshal(req.cmdArgs.stdinData)) else None;
    if invalid.Some? then Routed("", invalid)
    else Route(req, decoder, reconciler, lib, handlers, info)
  }

  /** One run of `pluginMain`: the reader left in `Stdin`, the text written to stdout and stderr, the error returned. */
  datatype Run = Run(stdin: Reader, stdout: string, stderr: string, err: Option<Error>)

  /** `pluginMain`, as a function of the dispatcher's inputs and the caller's arguments. */
  function Dispatch(env: map<string, string>, stdin: Reader, decoder: ConfigDecoder, reconciler: Reconciler,
                    lib: Library, handlers: Handlers, info: PluginInfo, about: string): (r: Run)
    ensures r.stdout != "" ==> Value(env, Command) == "VERSION"
    ensures r.stderr != "" ==> Value(env, Command) == "" && about != "" && r.stderr == about + "\n"
    ensures r.err.None? && r.stderr == "" ==> Extract(env, stdin).result.Success?
  {
    var ex := Extract(env, stdin);
    match ex.result
    case Failure(e) =>
      if e.code == ErrMissingEnvironmentVariables && Value(env, Command) == "" && about != "" then
        Run(ex.stdin, "", about + "\n", None)
      else
        Run(ex.stdin, "", "", Some(e))
    case Success(req) =>
      var served := Serve(req, decoder, reconciler, lib, handlers, info);
      Run(ex.stdin, served.stdout, "", served.err)
  }

  /** One iteration of the table loop keeps the collected names equal to the missing list of the rows read so far. */
  lemma ReadStep(vars: seq<EnvVar>, i: nat, env: map<string, string>, cmd: string, value: string,
                 before: seq<VarName>, after: seq<VarName>)
    requires i < |vars|
    requires before == MissingIn(vars[..i], env, cmd)
    requires value == Value(env, vars[i].name)
    requires after == before + (if value == "" && (Required(vars[i], cmd) || vars[i].name == Command) then [vars[i].name] else [])
    ensures after == MissingIn(vars[..i + 1], env, cmd)
  {
    MissingInSnoc(vars[..i], vars[i], env, cmd);
    assert vars[..i + 1] == vars[..i] + [vars[i]];
  }

  /**
   * One iteration of the table loop keeps the values read equal to the
   * environment's values of the rows read so far. Dafny needs no proof here;
   * stating the step apart keeps the loop's own proof small.
   */
  lemma ValuesStep(vars: seq<EnvVar>, i: nat, env: map<string, string>, before: seq<string>, after: seq<string>)
    requires i < |vars| && |before| == i
    requires forall k :: 0 <= k < i ==> before[k] == Value(env, vars[k].name)
    requires after == before + [Value(env, vars[i].name)]
    ensures |after| == i + 1
    ensures forall k :: 0 <= k < i + 1 ==> after[k] == Value(env, vars[k].name)
  {
  }

  /**
   * The loop of `getCmdArgsFromEnv` over a table whose first row is
   * CNI_COMMAND. Each row writes its value, by address, into one of the
   * locals (`cmd`, `contID`, `netns`, `ifName`, `args`, `path`, here the
   * elements of `values`), and a row that is empty and required for the
   * command read, or is CNI_COMMAND itself, is appended to the missing list.
   */
  method ReadVars(env: map<string, string>, vars: seq<EnvVar>) returns (values: seq<string>, argsMissing: seq<VarName>)
    requires |vars| > 0 && vars[0].name == Command
    ensures |values| == |vars|
    ensures forall k :: 0 <= k < |vars| ==> values[k] == Value(env, vars[k].name)
    ensures argsMissing == MissingIn(vars, env, Value(env, Command))
  {
    values := [];
    argsMissing := [];
    ghost var cmd := Value(env, Command);
    for i := 0 to |vars|
      invariant |values| == i
      invariant forall k :: 0 <= k < i ==> values[k] == Value(env, vars[k].name)
      invariant argsMissing == MissingIn(vars[..i], env, cmd)
    {
      var v := vars[i];
      var value := Getenv(env, v.name.Text());
      ghost var read := values;
      values := values + [value];
      ValuesStep(vars, i, env, read, values);
      ghost var before := argsMissing;
      if value == "" {
        if Required(v, values[0]) || v.name == Command {
          argsMissing := argsMissing + [v.name];
        }
      }
      ReadStep(vars, i, env, cmd, value, before, argsMissing);
    }
    assert vars[..|vars|] == vars;
  }

  // ---------------------------------------------------------------------------
  // The dispatcher object
  // ---------------------------------------------------------------------------

  /** `dispatcher`: the environment, the standard streams and the version collaborators. */
  class Dispatcher {
    var env: map<string, string>
    var stdin: Reader
    var stdout: string
    var stderr: string
    var confVersionDecoder: ConfigDecoder
    var versionReconciler: Reconciler

    constructor (env: map<string, string>, stdin: Reader, decoder: ConfigDecoder, reconciler: Reconciler)
      ensures this.env == env && this.stdin == stdin
      ensures this.confVersionDecoder == decoder && this.versionReconciler == reconciler
      ensures this.stdout == "" && this.stderr == ""
    {
      this.env := env;
      this.stdin := stdin;
      this.stdout := "";
      this.stderr := "";
      this.confVersionDecoder := decoder;
      this.versionReconciler := reconciler;
    }

    /**
     * `getCmdArgsFromEnv`: read every row of the table, collect the missing
     * ones, then read standard input (an empty reader for VERSION).
     */
    method GetCmdArgsFromEnv() returns (cmd: string, cmdArgs: Option<CmdArgs>, err: Option<Error>)
      modifies this`stdin
      ensures var ex := Extract(env, old(stdin));
        && stdin == ex.stdin
        && match ex.result
           case Success(req) => cmd == req.cmd && cmdArgs == Some(req.cmdArgs) && err.None?
           case Failure(e) => cmd == "" && cmdArgs.None? && err == Some(e)
    {
      var slots, argsMissing := ReadVars(env, Vars);
      if |argsMissing| > 0 {
        return "", None, Some(Error(ErrMissingEnvironmentVariables, MissingMessage(argsMissing), ""));
      }

      cmd := slots[0];
      var contID, netns, ifName, args, path := slots[1], slots[2], slots[3], slots[4], slots[5];

      if cmd == "VERSION" {
        stdin := EmptyReader;
      }

      match stdin
      case Broken(reason) =>
        return "", None, Some(Error(ErrFailedIO, "error reading from stdin: " + reason, ""));
      case Readable(stdinData) =>
        cmdArgs := Some(CmdArgs(contID, netns, ifName, args, path, stdinData));
        err := None;
    }

    /**
     * `pluginMain`: extract, honour the "about" escape hatch, validate the
     * configuration, then route by command.
     */
    method PluginMain(lib: Library, handlers: Handlers, versionInfo: PluginInfo, about: string)
      returns (err: Option<Error>)
      modifies this`stdin, this`stdout, this`stderr
      ensures var run := Dispatch(env, old(stdin), confVersionDecoder, versionReconciler, lib, handlers, versionInfo, about);
        && err == run.err
        && stdin == run.stdin
        && stdout == old(stdout) + run.stdout
        && stderr == old(stderr) + run.stderr
    {
      var cmd, cmdArgs, e := GetCmdArgsFromEnv();
      if e.Some? {
        if e.value.code == ErrMissingEnvironmentVariables && Value(env, Command) == "" && about != "" {
          stderr := stderr + (about + "\n");
          return None;
        }
        return e;
      }
      err := ServeRequest(Request(cmd, cmdArgs.value), lib, handlers, versionInfo);
    }

    /** The part of `pluginMain` after extraction: validate the configuration unless the command is VERSION, then route. */
    method ServeRequest(req: Request, lib: Library, handlers: Handlers, versionInfo: PluginInfo) returns (err: Option<Error>)
      modifies this`stdout
      ensures var served := Serve(req, confVersionDecoder, versionReconciler, lib, handlers, versionInfo);
        && err == served.err
        && stdout == old(stdout) + served.stdout
    {
      if req.cmd != "VERSION" {
        err := ValidateConfig(lib.unmarshal(req.cmdArgs.stdinData));
        if err.Some? {
          return err;
        }
      }
      err := RouteRequest(req, lib, handlers, versionInfo);
    }

    /** The `switch cmd` of `pluginMain`, run on a request that has passed validation. */
    method RouteRequest(req: Request, lib: Library, handlers: Handlers, versionInfo: PluginInfo) returns (err: Option<Error>)
      modifies this`stdout
      ensures var routed := Route(req, confVersionDecoder, versionReconciler, lib, handlers, versionInfo);
        && err == routed.err
        && stdout == old(stdout) + routed.stdout
    {
      var cmd, args := req.cmd, req.cmdArgs;
      if cmd == "ADD" {
        err := CheckVersionAndCall(confVersionDecoder, versionReconciler, args, versionInfo, handlers.add);
      } else if cmd == "CHECK" {
        var decoded := confVersionDecoder(args.stdinData);
        if decoded.Failure? {
          return Some(Error(ErrFailedDecode, decoded.error, ""));
        }
        var configVersion := decoded.value;
        var gtet := lib.greaterThanOrEqualTo(configVersion, CheckFloor);
        if gtet.Failure? {
          return Some(Error(ErrFailedDecode, gtet.error, ""));
        } else if !gtet.value {
          return Some(Error(ErrIncompatibleCNIVersion, "config version does not allow CHECK", ""));
        }
        var supported := versionInfo.supportedVersions;
        for i := 0 to |supported|
          invariant FirstAtLeast(lib.greaterThanOrEqualTo, supported, configVersion, 0)
                 == FirstAtLeast(lib.greaterThanOrEqualTo, supported, configVersion, i)
        {
          var pluginGtet := lib.greaterThanOrEqualTo(supported[i], configVersion);
          if pluginGtet.Failure? {
            return Some(Error(ErrFailedDecode, pluginGtet.error, ""));
          } else if pluginGtet.value {
            var callErr := CheckVersionAndCall(confVersionDecoder, versionReconciler, args, versionInfo, handlers.check);
            if callErr.Some? {
              return callErr;
            }
            return None;
          }
        }
        return Some(Error(ErrIncompatibleCNIVersion, "plugin version does not allow CHECK", ""));
      } else if cmd == "DEL" {
        err := CheckVersionAndCall(confVersionDecoder, versionReconciler, args, versionInfo, handlers.del);
      } else if cmd == "VERSION" {
        stdout := stdout + versionInfo.encoding.written;
        err := None;
        if versionInfo.encoding.failure.Some? {
          return Some(Error(ErrFailedEncode, versionInfo.encoding.failure.value, ""));
        }
      } else {
        return Some(Error(ErrUnknownCommand, "unknown CNI_COMMAND: " + cmd, ""));
      }

      if err.Some? {
        return err;
      }
      return None;
    }
  }
}
