# CNI plugin skeleton, modelled in Dafny

This project models the skeleton that every CNI (Container Network Interface)
plugin runs inside: package `skel` of the CNI library. The skeleton reads the
`CNI_*` environment variables and standard input into a `CmdArgs` value. It
checks that the variables each command needs are present, validates the
network configuration and routes the command (ADD, CHECK, DEL, VERSION) to the
plugin's handlers, checking versions on the way. Every failure becomes a typed
CNI error with a fixed code and message.

Layout:

- `wrappers.dfy`: `Option` and `Result`.
- `types.dfy`: the CNI error (`Error`, with its code, message and details) and
  the error codes the skeleton uses.
- `version.dfy`: the version collaborators, as values. These are the decoder
  that reads `cniVersion` from a configuration, the reconciler that checks it
  against the plugin, and the version ordering. The file also holds the
  plugin's version information.
- `skel.dfy`: module `Skel`. It holds the data model (`CmdArgs`, the
  requirement table `Vars`, the reader) and the specification functions
  (`Extract`, `ValidateConfig`, `CheckVersionAndCall`, `FirstAtLeast`,
  `CheckCommand`, `Route`, `Serve`, `Dispatch`). It also holds the class
  `Dispatcher`, which carries the environment, the standard streams and the
  version collaborators. Its methods `GetCmdArgsFromEnv` and `PluginMain` are
  imperative, as in the source, and each is proved equal to its specification
  function.
- `skel_properties.dfy`: module `SkelProperties`, which proves what the
  skeleton promises about those specification functions.

The environment is a map. A name that is absent reads as the empty string, as
`os.Getenv` does. Standard input is either readable, holding its whole
contents, or broken, with the reason for the read error. The plugin's
handlers, the configuration parser and the version collaborators are
parameters: function values whose results the model does not constrain.
Everything proved holds for every choice of them.

## Model

| member | source | states |
|---|---|---|
| Skel.Dispatcher.constructor | pkg/skel/skel.go:44-52 | A dispatcher holds the given environment, standard input and version collaborators, and nothing has been written to stdout or stderr yet. |
| Skel.ReadVars | pkg/skel/skel.go:129-137 | The loop over the table reads every row's variable from the environment, in table order. The names it collects are exactly the rows that are empty and either required for the command read or CNI_COMMAND itself, in table order. |
| Skel.MissingInSnoc | pkg/skel/skel.go:129-137 | Appending one row to the table extends the missing list by that row's name exactly when that row is missing. This is the step that lets the loop build the list one row at a time. |
| Skel.Dispatcher.GetCmdArgsFromEnv | pkg/skel/skel.go:65-162 | The method's outputs are exactly those of the `Extract` specification, and so is the reader it leaves in the dispatcher. |
| Skel.Extract | pkg/skel/skel.go:65-162 | Extraction succeeds if and only if nothing is missing and either the command is VERSION or standard input can be read. On success the request carries the command, the five other variables and the data of the reader left behind. The reader is either kept or, for VERSION, replaced by an empty one. The error cases are stated by SkelProperties.MissingVariablesReported and SkelProperties.StdinPassedThrough. |
| SkelProperties.MissingListNonEmpty | pkg/skel/skel.go:139-142 | The missing list is non-empty if and only if some row of the table is missing. |
| SkelProperties.RowsMissing | pkg/skel/skel.go:68-136 | Row by row: CNI_COMMAND is missing iff it is empty. CNI_CONTAINERID, CNI_IFNAME and CNI_PATH are missing iff they are empty and the command is ADD, CHECK or DEL. CNI_NETNS is missing iff it is empty and the command is ADD or CHECK. CNI_ARGS is never missing. |
| SkelProperties.MissingListSpelledOut | pkg/skel/skel.go:68-137 | The missing list for the command read is spelled out variable by variable, in table order. |
| SkelProperties.RequirementTable | pkg/skel/skel.go:68-127 | CNI_ARGS is required by no command. CNI_NETNS is required by ADD and CHECK but not by DEL. No variable is required by any command other than ADD, CHECK and DEL. |
| SkelProperties.NothingMissing | pkg/skel/skel.go:129-139 | When no row is missing, the missing list is empty. |
| SkelProperties.MissingVariablesReported | pkg/skel/skel.go:129-142 | Extraction fails with ErrMissingEnvironmentVariables if and only if some row is missing. Its message is "required env variables [...] missing" with every missing name, comma-separated, in table order. In that case standard input is left untouched. |
| SkelProperties.OnlyCommandReportedOutsideAddCheckDel | pkg/skel/skel.go:73-137 | For any command other than ADD, CHECK and DEL, the missing list is [CNI_COMMAND] when the command is empty and is empty otherwise. |
| SkelProperties.VersionIgnoresStdin | pkg/skel/skel.go:144-161 | For VERSION, extraction always succeeds. The reader is replaced by an empty one and the request's standard input data is empty, whatever the original standard input was. |
| SkelProperties.StdinPassedThrough | pkg/skel/skel.go:144-161 | For other commands with nothing missing, the reader is kept. A readable input becomes StdinData byte for byte, next to the five variables read. A read error becomes ErrFailedIO "error reading from stdin: ...". |
| Skel.ValidateConfig | pkg/skel/skel.go:192-203 | The configuration passes if and only if it parses and has a non-empty name. A parse error is ErrFailedDecode "error unmarshall network config: ...". A missing name is ErrInvalidNetworkConfig "missing network name". |
| Skel.WrapHandlerError | pkg/skel/skel.go:181-189 | A handler's success is no error. A typed error is returned as it is, without further wrapping. Any other error becomes ErrFailedPluginCall carrying its message. |
| SkelProperties.HandlerErrorWrappedOnce | pkg/skel/skel.go:181-187 | Wrapping is idempotent: an error the skeleton returned for a handler comes back unchanged when fed in again. ErrFailedPluginCall arises only from an untyped error, or from a typed error that already carries that code. |
| Skel.CheckVersionAndCall | pkg/skel/skel.go:171-190 | The call succeeds if and only if the version decodes, the reconciler accepts it and the handler succeeds. Every error it returns has code ErrFailedDecode, ErrIncompatibleCNIVersion or ErrFailedPluginCall, or is a typed error the handler returned. The branches one by one are stated by SkelProperties.HandlerCalledOnlyAfterChecks. |
| SkelProperties.HandlerCalledOnlyAfterChecks | pkg/skel/skel.go:171-190 | A version that fails to decode is ErrFailedDecode. A reconciler refusal is ErrIncompatibleCNIVersion "incompatible CNI versions" with the reconciler's details. In both cases the result does not depend on the handler. Otherwise the result is the handler's outcome, wrapped once. |
| Skel.FirstAtLeast | pkg/skel/skel.go:236-246 | Scanning the plugin's supported versions in order gives one of three results. Found(i) means entry i is the first whose comparison is not "less". CompareFailed means the first such entry's comparison failed. NoMatch means every comparison says "less". |
| Skel.CheckCommand | pkg/skel/skel.go:226-247 | CHECK succeeds if and only if the version decodes and is at least 0.4.0, some supported version is at or above it with no failed comparison before it, and the version-checked handler call succeeds. Each error case is stated by SkelProperties.CheckRouting. |
| SkelProperties.CheckRouting | pkg/skel/skel.go:226-247 | CHECK has five outcomes. A decode error is ErrFailedDecode. A failed comparison against 0.4.0 is ErrFailedDecode. A configuration version below 0.4.0 is ErrIncompatibleCNIVersion "config version does not allow CHECK". Otherwise, the first supported version at or above the configuration version leads to the version-checked handler call, and a failed comparison met first is ErrFailedDecode. When no supported version qualifies, the result is ErrIncompatibleCNIVersion "plugin version does not allow CHECK". |
| SkelProperties.CheckBelowFloorRefused | pkg/skel/skel.go:231-235 | A configuration that declares 0.3.1 is refused for CHECK even when the plugin supports 0.4.0. |
| Skel.Route | pkg/skel/skel.go:223-256 | Only VERSION writes to stdout, and it writes the encoded version information, failing exactly when encoding fails. A command other than ADD, CHECK, DEL and VERSION never succeeds. The per-command results are stated by SkelProperties.CommandRouting and SkelProperties.VersionOnlyEncodes. |
| Skel.Serve | pkg/skel/skel.go:216-256 | A request other than VERSION succeeds only if its configuration parses and has a non-empty name. Only VERSION writes to stdout. |
| Skel.Dispatch | pkg/skel/skel.go:205-262 | A run writes to stdout only for VERSION. It writes to stderr only when CNI_COMMAND is empty and an "about" string is given, and then writes exactly that string and a newline. A run that succeeds without writing to stderr had a successful extraction. The branches are stated by the SkelProperties lemmas below. |
| Skel.Dispatcher.PluginMain | pkg/skel/skel.go:205-262 | The returned error, the reader left behind and the text appended to stdout and stderr are exactly those of the `Dispatch` specification. |
| Skel.Dispatcher.ServeRequest | pkg/skel/skel.go:216-262 | After extraction, the configuration is validated unless the command is VERSION, and only a valid one is routed. The error and stdout are those of the `Serve` specification. |
| Skel.Dispatcher.RouteRequest | pkg/skel/skel.go:223-261 | The command switch, including the CHECK loop over supported versions, returns the error and writes the stdout text given by the `Route` specification. |
| SkelProperties.AboutBranch | pkg/skel/skel.go:206-214 | With CNI_COMMAND empty and an "about" string, the run writes that string and a newline to stderr, succeeds and writes nothing to stdout. Without one, the run returns the extraction error unchanged: ErrMissingEnvironmentVariables with the message built from the missing list, which lists CNI_COMMAND first. Nothing is written and the reader is left alone. |
| SkelProperties.ExtractionErrorPropagates | pkg/skel/skel.go:206-214 | With CNI_COMMAND set, an extraction error is returned unchanged and nothing is written. |
| SkelProperties.ValidationPrecedesRouting | pkg/skel/skel.go:216-221 | For every command other than VERSION, unknown commands included, an invalid configuration is the run's error and nothing is written. The result does not depend on the handlers. |
| SkelProperties.CommandRouting | pkg/skel/skel.go:223-256 | ADD and DEL go through the version-checked call with their own handler, and CHECK through its own rule. Any other command except VERSION is ErrUnknownCommand "unknown CNI_COMMAND: ...". None of them writes anything. |
| SkelProperties.VersionOnlyEncodes | pkg/skel/skel.go:250-253 | VERSION writes the plugin's encoded version information to stdout. An encoding error is ErrFailedEncode. The result depends on neither standard input, the configuration, the collaborators nor the handlers. |
| SkelProperties.ErrorsFromClosedSet | pkg/skel/skel.go:205-262 | Every error a run returns either carries one of the skeleton's own codes or is a typed error one of the handlers returned, unchanged. |

## Left out

- `PluginMainWithError` and `PluginMain` (the exported entry points): they wire the dispatcher to the process environment. `PluginMain` also prints the error as JSON and exits the process. Process I/O and exit are not modelled.
- `createTypedError`: nothing in the core calls it.
- JSON decoding of the network configuration is reduced to its outcome: a parse error with its text, or the `name` field. `encoding/json` is not part of this model.
- The version decoder, the reconciler, the version ordering and `PluginInfo.Encode` are parameters that return results. Their own logic lives in `pkg/version`, which is not part of this model. Encoding is given as the text it writes plus an optional error.
- `pkg/types` is not part of this model. Error codes are an enumeration, without the numeric values or the JSON form of `types.Error`, so there is no round trip through JSON.
- Handlers are deterministic functions of their `CmdArgs`. Their side effects, panics and any change to the `CmdArgs` they are given are not modelled. "The handler is not called" is stated as "the result does not depend on the handler".
- Skel.Dispatcher.GetCmdArgsFromEnv: a reader is modelled by the whole of its contents or a read error. How far `ioutil.ReadAll` drained it, and any data read before an error, are not modelled.
- Skel.Dispatcher.PluginMain: the source ignores any error from writing the "about" line to stderr, and the model does not represent one. Writing that line is an append to stderr. An error from encoding the version information to stdout is modelled, as ErrFailedEncode.
- The environment lookup (`Getenv func(string) string`) is modelled as a map in which an absent name reads as the empty string. The six variable names are an enumeration that maps to the `CNI_*` strings.
- The variables are read through a loop over the table that collects their values in order. The Go code writes them by address into six locals instead, which is not modelled.
- For CHECK, the source's 0.4.0 floor is applied before the supported versions are scanned. A configuration declaring 0.3.1 is therefore refused even when the plugin lists 0.4.0 (`SkelProperties.CheckBelowFloorRefused`). The model follows the code here.
