/**
 * What the plugin SDK gives a lifecycle callback and takes back from it:
 * the diagnostics it returns, the outcome of one callback, and GetOk.
 */
module Lifecycle {
  import opened SlackApi

  /** Every fatal condition the callbacks report. */
  datatype Error =
    | ApiError(code: string)           // a failed client call, its error text surfaced verbatim
    | UnknownAction(action: string)    // an action_on_destroy other than "none" or "archive"
    | UserGroupNotFound(id: string)    // the user group resource's ID is not in the list
    | CouldNotBeFound(id: string)      // the user group data source's ID is not in the list
    | UserGroupIdChanged(resId: string) // usergroup_id no longer equals the members resource's ID

  /** The summary text diag.FromErr carries for each error. */
  function Summary(e: Error): string {
    match e
    case ApiError(code) => code
    case UnknownAction(action) => "unknown action was provided. (" + action + ")"
    case UserGroupNotFound(id) => "a usergroup (" + id + ") is not found"
    case CouldNotBeFound(id) => id + " could not be found"
    case UserGroupIdChanged(resId) => "it looks usergroup id has been changed but it's not allowed. Res ID: " + resId
  }

  datatype Diag = Ok | Fatal(error: Error)

  /**
   * The outcome of one callback: its diagnostics, the resource data it leaves
   * behind, the workspace after it, and the client calls it issued, in order.
   */
  datatype Run<+S> = Run(diag: Diag, state: S, remote: Remote, calls: seq<Call>)

  /** The SDK's GetOk on a string attribute: set, and not the zero value. */
  predicate GetOk(v: string) {
    v != ""
  }

  /** The call `call` went first, and `run` is what followed it. */
  function Then<S>(call: Call, run: Run<S>): Run<S> {
    run.(calls := [call] + run.calls)
  }

  /** The call in `s` failed: return its error, keep the resource data as it was. */
  function Abort<S, T>(d: S, s: Served<T>): Run<S>
    requires s.reply.Failed?
  {
    Run(Fatal(ApiError(s.reply.code)), d, s.remote, [s.call])
  }

  /** The reply counts as success once the "already in that state" code `sentinel` is swallowed. */
  predicate Tolerated<T>(reply: Reply<T>, sentinel: string) {
    reply.Done? || reply.code == sentinel
  }
}
