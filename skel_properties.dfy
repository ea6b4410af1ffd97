/**
 * What the CNI plugin skeleton promises, proved about the specification
 * functions of module Skel (and so, through the ensures clauses of
 * `Dispatcher.GetCmdArgsFromEnv` and `Dispatcher.PluginMain`, about the
 * methods as well).
 */
module SkelProperties {
  import opened Wrappers
  import opened Types
  import opened Version
  import opened Skel

  // ---------------------------------------------------------------------------
  // Environment extraction
  // ---------------------------------------------------------------------------

  /** Some row is missing exactly when the missing list is non-empty. */
  lemma {:induction false} MissingListNonEmpty(vars: seq<EnvVar>, env: map<string, string>, cmd: string)
    ensures |MissingIn(vars, env, cmd)| > 0 <==> exists k :: 0 <= k < |vars| && IsMissing(vars[k], env, cmd)
  {
    if vars != [] {
      MissingListNonEmpty(vars[1..], env, cmd);
      if !IsMissing(vars[0], env, cmd) && |MissingIn(vars[1..], env, cmd)| == 0 {
        forall k | 0 <= k < |vars| ensures !IsMissing(vars[k], env, cmd) {
          if k > 0 { assert vars[k] == vars[1..][k - 1]; }
        }
      } else if !IsMissing(vars[0], env, cmd) {
        var k :| 0 <= k < |vars[1..]| && IsMissing(vars[1..][k], env, cmd);
        assert vars[k + 1] == vars[1..][k];
      }
    }
  }

  /** Whether a command is one of those that require the other variables. */
  predicate NeedsEnvironment(cmd: string) {
    cmd == "ADD" || cmd == "CHECK" || cmd == "DEL"
  }

  /**
   * The missing list spelled out variable by variable, in table order:
   * CNI_COMMAND whenever it is empty; CNI_CONTAINERID, CNI_IFNAME and CNI_PATH
   * when empty for ADD, CHECK and DEL; CNI_NETNS when empty for ADD and CHECK
   * only; CNI_ARGS never.
   */
  lemma MissingListSpelledOut(env: map<string, string>)
    ensures var cmd := Value(env, Command);
      MissingIn(Vars, env, cmd)
        == (if cmd == "" then [Command] else [])
         + ((if Value(env, ContainerId) == "" && NeedsEnvironment(cmd) then [ContainerId] else [])
         + ((if Value(env, Netns) == "" && (cmd == "ADD" || cmd == "CHECK") then [Netns] else [])
         + ((if Value(env, IfName) == "" && NeedsEnvironment(cmd) then [IfName] else [])
         + (if Value(env, Path) == "" && NeedsEnvironment(cmd) then [Path] else []))))
  {
    var cmd := Value(env, Command);
    RowsMissing(env, cmd);
    var m0, m1, m2, m3, m4, m5 := IsMissing(Vars[0], env, cmd), IsMissing(Vars[1], env, cmd), IsMissing(Vars[2], env, cmd),
                                  IsMissing(Vars[3], env, cmd), IsMissing(Vars[4], env, cmd), IsMissing(Vars[5], env, cmd);
    assert MissingIn(Vars[5..], env, cmd) == (if m5 then [Path] else []) + MissingIn(Vars[6..], env, cmd);
    assert MissingIn(Vars[5..], env, cmd) == (if m5 then [Path] else []);
    assert MissingIn(Vars[4..], env, cmd) == (if m4 then [Args] else []) + MissingIn(Vars[5..], env, cmd);
    assert MissingIn(Vars[4..], env, cmd) == MissingIn(Vars[5..], env, cmd);
    assert MissingIn(Vars[3..], env, cmd) == (if m3 then [IfName] else []) + MissingIn(Vars[4..], env, cmd);
    assert MissingIn(Vars[2..], env, cmd) == (if m2 then [Netns] else []) + MissingIn(Vars[3..], env, cmd);
    assert MissingIn(Vars[1..], env, cmd) == (if m1 then [ContainerId] else []) + MissingIn(Vars[2..], env, cmd);
    assert MissingIn(Vars, env, cmd) == (if m0 then [Command] else []) + MissingIn(Vars[1..], env, cmd);
  }

  /** Row by row, when the table reports a variable for the command read. */
  lemma RowsMissing(env: map<string, string>, cmd: string)
    requires cmd == Value(env, Command)
    ensures IsMissing(Vars[0], env, cmd) <==> cmd == ""
    ensures IsMissing(Vars[1], env, cmd) <==> Value(env, ContainerId) == "" && NeedsEnvironment(cmd)
    ensures IsMissing(Vars[2], env, cmd) <==> Value(env, Netns) == "" && (cmd == "ADD" || cmd == "CHECK")
    ensures IsMissing(Vars[3], env, cmd) <==> Value(env, IfName) == "" && NeedsEnvironment(cmd)
    ensures !IsMissing(Vars[4], env, cmd)
    ensures IsMissing(Vars[5], env, cmd) <==> Value(env, Path) == "" && NeedsEnvironment(cmd)
  {
  }

  /**
   * Extraction fails with MissingEnvironmentVariables exactly when some row is
   * empty and either is CNI_COMMAND or is required for the command read; the
   * message then lists the whole missing list, no CmdArgs is produced and the
   * reader is left alone.
   */
  lemma MissingVariablesReported(env: map<string, string>, stdin: Reader)
    ensures var ex := Extract(env, stdin);
      (ex.result.Failure? && ex.result.error.code == ErrMissingEnvironmentVariables)
      <==> exists k :: 0 <= k < |Vars| && IsMissing(Vars[k], env, Value(env, Command))
    ensures var ex := Extract(env, stdin);
      ex.result.Failure? && ex.result.error.code == ErrMissingEnvironmentVariables ==>
        && ex.result.error == Error(ErrMissingEnvironmentVariables,
                                    MissingMessage(MissingIn(Vars, env, Value(env, Command))), "")
        && ex.stdin == stdin
  {
    MissingListNonEmpty(Vars, env, Value(env, Command));
  }

  /** The requirement table: CNI_ARGS is never required, CNI_NETNS not for DEL, nothing for any other command. */
  lemma RequirementTable()
    ensures Vars[0].name == Command && Vars[2].name == Netns && Vars[4].name == Args
    ensures forall cmd :: !Required(Vars[4], cmd)
    ensures !Required(Vars[2], "DEL") && Required(Vars[2], "ADD") && Required(Vars[2], "CHECK")
    ensures forall k, cmd :: 0 <= k < |Vars| && cmd != "ADD" && cmd != "CHECK" && cmd != "DEL" ==> !Required(Vars[k], cmd)
  {
  }

  /** No row is missing, so nothing is reported. */
  lemma {:induction false} NothingMissing(vars: seq<EnvVar>, env: map<string, string>, cmd: string)
    requires forall k :: 0 <= k < |vars| ==> !IsMissing(vars[k], env, cmd)
    ensures MissingIn(vars, env, cmd) == []
  {
    if vars != [] {
      NothingMissing(vars[1..], env, cmd);
    }
  }

  /**
   * For VERSION, for an unrecognised command and for an empty one, no variable
   * but CNI_COMMAND can be reported missing, and CNI_COMMAND only when empty.
   */
  lemma OnlyCommandReportedOutsideAddCheckDel(env: map<string, string>)
    requires Value(env, Command) != "ADD" && Value(env, Command) != "CHECK" && Value(env, Command) != "DEL"
    ensures MissingIn(Vars, env, Value(env, Command))
         == if Value(env, Command) == "" then [Command] else []
  {
    var cmd := Value(env, Command);
    RequirementTable();
    forall k | 0 <= k < |Vars[1..]| ensures !IsMissing(Vars[1..][k], env, cmd) {
      assert Vars[1..][k] == Vars[k + 1];
    }
    NothingMissing(Vars[1..], env, cmd);
  }

  /**
   * For VERSION extraction always succeeds, standard input is replaced by an
   * empty reader and is never read: the request does not depend on it and its
   * data is empty.
   */
  lemma VersionIgnoresStdin(env: map<string, string>, stdin: Reader)
    requires Value(env, Command) == "VERSION"
    ensures Extract(env, stdin) == Extraction(EmptyReader, Success(Request("VERSION",
      CmdArgs(Value(env, ContainerId), Value(env, Netns), Value(env, IfName),
              Value(env, Args), Value(env, Path), []))))
  {
    OnlyCommandReportedOutsideAddCheckDel(env);
  }

  /**
   * For any other command with nothing missing, the reader is kept and read
   * whole: its bytes become StdinData exactly, and a read error is FailedIO
   * with no CmdArgs.
   */
  lemma StdinPassedThrough(env: map<string, string>, stdin: Reader)
    requires Value(env, Command) != "VERSION"
    requires forall k :: 0 <= k < |Vars| ==> !IsMissing(Vars[k], env, Value(env, Command))
    ensures Extract(env, stdin).stdin == stdin
    ensures stdin.Readable? ==> Extract(env, stdin).result == Success(Request(Value(env, Command),
      CmdArgs(Value(env, ContainerId), Value(env, Netns), Value(env, IfName),
              Value(env, Args), Value(env, Path), stdin.data)))
    ensures stdin.Broken? ==>
      Extract(env, stdin).result == Failure(Error(ErrFailedIO, "error reading from stdin: " + stdin.reason, ""))
  {
    NothingMissing(Vars, env, Value(env, Command));
  }

  // ---------------------------------------------------------------------------
  // Version-checked handler call
  // ---------------------------------------------------------------------------

  /**
   * Wrapping is never applied twice: feeding an error the skeleton returned
   * for a handler back in as a typed error returns it unchanged.
   */
  lemma HandlerErrorWrappedOnce(outcome: HandlerOutcome)
    ensures WrapHandlerError(outcome).Some? ==>
      WrapHandlerError(Typed(WrapHandlerError(outcome).value)) == WrapHandlerError(outcome)
    ensures WrapHandlerError(outcome).Some? && WrapHandlerError(outcome).value.code == ErrFailedPluginCall ==>
      outcome.Plain? || outcome.err.code == ErrFailedPluginCall
  {
  }

  /**
   * `checkVersionAndCall` calls the handler only after the version decodes and
   * reconciles: before that its result is the same whatever the handler, after
   * it it is the handler's outcome, wrapped once. Decoding errors are
   * FailedDecode; a reconciler error is IncompatibleCNIVersion with its details.
   */
  lemma HandlerCalledOnlyAfterChecks(decoder: ConfigDecoder, reconciler: Reconciler, cmdArgs: CmdArgs,
                                     info: PluginInfo, h1: CmdArgs -> HandlerOutcome, h2: CmdArgs -> HandlerOutcome)
    ensures decoder(cmdArgs.stdinData).Failure? ==>
      CheckVersionAndCall(decoder, reconciler, cmdArgs, info, h1)
        == Some(Error(ErrFailedDecode, decoder(cmdArgs.stdinData).error, ""))
    ensures decoder(cmdArgs.stdinData).Success? && reconciler(decoder(cmdArgs.stdinData).value, info).Some? ==>
      CheckVersionAndCall(decoder, reconciler, cmdArgs, info, h1)
        == Some(Error(ErrIncompatibleCNIVersion, "incompatible CNI versions",
                      reconciler(decoder(cmdArgs.stdinData).value, info).value))
    ensures (decoder(cmdArgs.stdinData).Failure? || reconciler(decoder(cmdArgs.stdinData).value, info).Some?) ==>
      CheckVersionAndCall(decoder, reconciler, cmdArgs, info, h1) == CheckVersionAndCall(decoder, reconciler, cmdArgs, info, h2)
    ensures decoder(cmdArgs.stdinData).Success? && reconciler(decoder(cmdArgs.stdinData).value, info).None? ==>
      CheckVersionAndCall(decoder, reconciler, cmdArgs, info, h1) == WrapHandlerError(h1(cmdArgs))
  {
  }

  // ---------------------------------------------------------------------------
  // CHECK routing
  // ---------------------------------------------------------------------------

  /**
   * CHECK: a configuration version below 0.4.0 is refused whatever the plugin
   * supports; otherwise the first supported version (in the plugin's order)
   * that is >= the configuration version leads to the general version-checked
   * call, a failed comparison before it is FailedDecode, and no such version
   * is IncompatibleCNIVersion.
   */
  lemma CheckRouting(decoder: ConfigDecoder, reconciler: Reconciler, lib: Library, cmdArgs: CmdArgs,
                     info: PluginInfo, cmdCheck: CmdArgs -> HandlerOutcome)
    ensures decoder(cmdArgs.stdinData).Failure? ==>
      CheckCommand(decoder, reconciler, lib, cmdArgs, info, cmdCheck)
        == Some(Error(ErrFailedDecode, decoder(cmdArgs.stdinData).error, ""))
    ensures decoder(cmdArgs.stdinData).Success? ==>
      var cv := decoder(cmdArgs.stdinData).value;
      var gte := lib.greaterThanOrEqualTo;
      var sv := info.supportedVersions;
      var r := CheckCommand(decoder, reconciler, lib, cmdArgs, info, cmdCheck);
      && (gte(cv, CheckFloor).Failure? ==> r == Some(Error(ErrFailedDecode, gte(cv, CheckFloor).error, "")))
      && (gte(cv, CheckFloor) == Success(false) ==>
            r == Some(Error(ErrIncompatibleCNIVersion, "config version does not allow CHECK", "")))
      && (gte(cv, CheckFloor) == Success(true) ==>
          && (forall i :: (0 <= i < |sv| && gte(sv[i], cv) == Success(true) &&
                           (forall j :: 0 <= j < i ==> gte(sv[j], cv) == Success(false))) ==>
                  r == CheckVersionAndCall(decoder, reconciler, cmdArgs, info, cmdCheck))
          && (forall i :: (0 <= i < |sv| && gte(sv[i], cv).Failure? &&
                           (forall j :: 0 <= j < i ==> gte(sv[j], cv) == Success(false))) ==>
                  r == Some(Error(ErrFailedDecode, gte(sv[i], cv).error, "")))
          && ((forall j :: 0 <= j < |sv| ==> gte(sv[j], cv) == Success(false)) ==>
                r == Some(Error(ErrIncompatibleCNIVersion, "plugin version does not allow CHECK", ""))))
  {
    if decoder(cmdArgs.stdinData).Success? {
      var cv := decoder(cmdArgs.stdinData).value;
      var gte := lib.greaterThanOrEqualTo;
      var sv := info.supportedVersions;
      var scan := FirstAtLeast(gte, sv, cv, 0);
      forall i | 0 <= i < |sv| && gte(sv[i], cv) != Success(false) &&
                 (forall j :: 0 <= j < i ==> gte(sv[j], cv) == Success(false))
        ensures (gte(sv[i], cv) == Success(true) ==> scan == Found(i))
        ensures (gte(sv[i], cv).Failure? ==> scan == CompareFailed(gte(sv[i], cv).error))
      {
        if scan.Found? {
          assert !(scan.index < i) && !(i < scan.index);
        } else if scan.CompareFailed? {
          var i' :| 0 <= i' < |sv| && gte(sv[i'], cv) == Failure(scan.reason) &&
                    forall j :: 0 <= j < i' ==> gte(sv[j], cv) == Success(false);
          assert !(i' < i) && !(i < i');
        }
      }
    }
  }

  /** Declaring a version below 0.4.0 refuses CHECK even when the plugin lists a version that satisfies it. */
  lemma CheckBelowFloorRefused(decoder: ConfigDecoder, reconciler: Reconciler, lib: Library, cmdArgs: CmdArgs,
                               info: PluginInfo, cmdCheck: CmdArgs -> HandlerOutcome)
    requires decoder(cmdArgs.stdinData) == Success("0.3.1")
    requires lib.greaterThanOrEqualTo("0.3.1", CheckFloor) == Success(false)
    requires info.supportedVersions == ["0.3.0", "0.4.0"]
    requires lib.greaterThanOrEqualTo("0.4.0", "0.3.1") == Success(true)
    ensures CheckCommand(decoder, reconciler, lib, cmdArgs, info, cmdCheck)
         == Some(Error(ErrIncompatibleCNIVersion, "config version does not allow CHECK", ""))
  {
  }

  // ---------------------------------------------------------------------------
  // Dispatch
  // ---------------------------------------------------------------------------

  /**
   * With CNI_COMMAND empty: an "about" string is written once to stderr and the
   * run succeeds; without one, the run fails with MissingEnvironmentVariables
   * whose list starts with CNI_COMMAND. Nothing goes to stdout either way.
   */
  lemma AboutBranch(env: map<string, string>, stdin: Reader, decoder: ConfigDecoder, reconciler: Reconciler,
                    lib: Library, handlers: Handlers, info: PluginInfo, about: string)
    requires Value(env, Command) == ""
    ensures var run := Dispatch(env, stdin, decoder, reconciler, lib, handlers, info, about);
      && (about != "" ==> run == Run(stdin, "", about + "\n", None))
      && (about == "" ==>
            run == Run(stdin, "", "", Some(Error(ErrMissingEnvironmentVariables, MissingMessage(MissingIn(Vars, env, "")), ""))))
    ensures MissingIn(Vars, env, "")[0] == Command
  {
    var missing := MissingIn(Vars, env, "");
    assert IsMissing(Vars[0], env, "");
    MissingListNonEmpty(Vars, env, "");
    assert Extract(env, stdin) == Extraction(stdin, Failure(Error(ErrMissingEnvironmentVariables, MissingMessage(missing), "")));
  }

  /** With CNI_COMMAND set, an extraction error is returned as it is, and nothing is written. */
  lemma ExtractionErrorPropagates(env: map<string, string>, stdin: Reader, decoder: ConfigDecoder, reconciler: Reconciler,
                                  lib: Library, handlers: Handlers, info: PluginInfo, about: string)
    requires Value(env, Command) != ""
    requires Extract(env, stdin).result.Failure?
    ensures Dispatch(env, stdin, decoder, reconciler, lib, handlers, info, about)
         == Run(Extract(env, stdin).stdin, "", "", Some(Extract(env, stdin).result.error))
  {
  }

  /**
   * Every command but VERSION, unknown ones included, has its configuration
   * validated before routing: a bad configuration is reported as such, nothing
   * is written, and no handler is consulted.
   */
  lemma ValidationPrecedesRouting(env: map<string, string>, stdin: Reader, decoder: ConfigDecoder, reconciler: Reconciler,
                                  lib: Library, handlers: Handlers, otherHandlers: Handlers, info: PluginInfo, about: string)
    requires Extract(env, stdin).result.Success?
    requires Extract(env, stdin).result.value.cmd != "VERSION"
    requires ValidateConfig(lib.unmarshal(Extract(env, stdin).result.value.cmdArgs.stdinData)).Some?
    ensures var run := Dispatch(env, stdin, decoder, reconciler, lib, handlers, info, about);
      && run == Run(stdin, "", "", ValidateConfig(lib.unmarshal(Extract(env, stdin).result.value.cmdArgs.stdinData)))
      && run == Dispatch(env, stdin, decoder, reconciler, lib, otherHandlers, info, about)
  {
  }

  /** ADD and DEL go through the general version-checked call with their own handler; CHECK through its own rule. */
  lemma CommandRouting(env: map<string, string>, stdin: Reader, decoder: ConfigDecoder, reconciler: Reconciler,
                       lib: Library, handlers: Handlers, info: PluginInfo, about: string)
    requires Extract(env, stdin).result.Success?
    requires ValidateConfig(lib.unmarshal(Extract(env, stdin).result.value.cmdArgs.stdinData)).None?
    ensures var req := Extract(env, stdin).result.value;
      var run := Dispatch(env, stdin, decoder, reconciler, lib, handlers, info, about);
      && (req.cmd == "ADD" ==>
            run == Run(stdin, "", "", CheckVersionAndCall(decoder, reconciler, req.cmdArgs, info, handlers.add)))
      && (req.cmd == "DEL" ==>
            run == Run(stdin, "", "", CheckVersionAndCall(decoder, reconciler, req.cmdArgs, info, handlers.del)))
      && (req.cmd == "CHECK" ==>
            run == Run(stdin, "", "", CheckCommand(decoder, reconciler, lib, req.cmdArgs, info, handlers.check)))
      && (req.cmd != "ADD" && req.cmd != "CHECK" && req.cmd != "DEL" && req.cmd != "VERSION" ==>
            run == Run(stdin, "", "", Some(Error(ErrUnknownCommand, "unknown CNI_COMMAND: " + req.cmd, ""))))
  {
  }

  /**
   * VERSION only encodes the plugin's version information to stdout: the
   * result does not depend on standard input, the configuration, the version
   * collaborators or the handlers, and an encoding error is FailedEncode.
   */
  lemma VersionOnlyEncodes(env: map<string, string>, stdin: Reader, decoder: ConfigDecoder, reconciler: Reconciler,
                           lib: Library, handlers: Handlers, info: PluginInfo, about: string)
    requires Value(env, Command) == "VERSION"
    ensures Dispatch(env, stdin, decoder, reconciler, lib, handlers, info, about)
         == Run(EmptyReader, info.encoding.written, "",
                if info.encoding.failure.Some? then Some(Error(ErrFailedEncode, info.encoding.failure.value, "")) else None)
  {
    VersionIgnoresStdin(env, stdin);
  }

  /** A handler's error is one of the three it was given the arguments for returned. */
  predicate HandlerReturned(handlers: Handlers, cmdArgs: CmdArgs, e: Error) {
    handlers.add(cmdArgs) == Typed(e) || handlers.check(cmdArgs) == Typed(e) || handlers.del(cmdArgs) == Typed(e)
  }

  /**
   * Every error of a run is either one the skeleton made, with one of its own
   * codes, or a typed error a handler returned, passed on unchanged.
   */
  lemma ErrorsFromClosedSet(env: map<string, string>, stdin: Reader, decoder: ConfigDecoder, reconciler: Reconciler,
                            lib: Library, handlers: Handlers, info: PluginInfo, about: string)
    ensures var run := Dispatch(env, stdin, decoder, reconciler, lib, handlers, info, about);
      run.err.Some? ==>
        || IsSkeletonCode(run.err.value.code)
        || (Extract(env, stdin).result.Success? &&
            HandlerReturned(handlers, Extract(env, stdin).result.value.cmdArgs, run.err.value))
  {
  }
}
