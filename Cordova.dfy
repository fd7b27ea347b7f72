/** What the plugins see of the Cordova bridge: callback contexts, identified by
    number, and the results sent to them. */
module Cordova {
  /** A CallbackContext, identified by the bridge's callback id. */
  type CallbackId = nat

  /** A result sent to a callback context. */
  datatype PluginResult =
    | Success                 // callback.success()
    | SuccessWith(b: bool)    // new PluginResult(Status.OK, b)
    | Error(message: string)  // callback.error(message)
    | NoResultKept            // Status.NO_RESULT with setKeepCallback(true)
  {
    /** A result after which Cordova releases the callback. */
    predicate IsFinal() { !NoResultKept? }
  }
}
