/**
 * The typed error that every failure of the plugin skeleton is reported as
 * (the `*types.Error` of pkg/types). pkg/types is not part of this model: its
 * numeric codes, JSON form and printing are left abstract.
 */
module Types {

  /** A byte of standard input. */
  newtype byte = x: int | 0 <= x < 256

  /**
   * The error kinds the skeleton itself produces, named after the `types.Err*`
   * constants it uses. A handler may return a typed error of its own with any
   * other code; such a code is kept as `PluginDefined`.
   */
  datatype ErrorCode =
    | ErrMissingEnvironmentVariables
    | ErrFailedIO
    | ErrFailedDecode
    | ErrFailedEncode
    | ErrInvalidNetworkConfig
    | ErrIncompatibleCNIVersion
    | ErrUnknownCommand
    | ErrFailedPluginCall
    | PluginDefined(code: nat)

  /** `types.Error`: a code, a message and free-form details. */
  datatype Error = Error(code: ErrorCode, msg: string, details: string)

  /** The codes the skeleton creates on its own account (everything but `PluginDefined`). */
  predicate IsSkeletonCode(c: ErrorCode) {
    !c.PluginDefined?
  }
}
