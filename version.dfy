/**
 * The collaborators from pkg/version that the skeleton calls. pkg/version is
 * not part of this model: each collaborator is an opaque function value whose
 * result (a value, or the text of its error) is given, not computed.
 */
module Version {
  import opened Wrappers
  import opened Types

  /** What `PluginInfo.Encode(w)` does: the text it writes to `w`, and its error if any. */
  datatype EncodeResult = EncodeResult(written: string, failure: Option<string>)

  /** `version.PluginInfo`: the supported versions in the plugin's own order, and its encoder. */
  datatype PluginInfo = PluginInfo(supportedVersions: seq<string>, encoding: EncodeResult)

  /** `ConfVersionDecoder.Decode`: the `cniVersion` of a configuration, or the error text. */
  type ConfigDecoder = seq<byte> -> Result<string, string>

  /** `VersionReconciler.Check`: `None` when compatible, otherwise the error's `Details()`. */
  type Reconciler = (string, PluginInfo) -> Option<string>

  /** `version.GreaterThanOrEqualTo(a, b)`: whether a >= b, or the text of a parse error. */
  type VersionOrder = (string, string) -> Result<bool, string>
}
