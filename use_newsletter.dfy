/**
 * src/app/components/useNewsletter.tsx: `submitNewsletter`, which turns the
 * subscribe call's reply into a result object.
 */
module UseNewsletter {
  import opened Common
  import opened Web

  /** The subscribe endpoint's JSON body: its `message` ("" when absent). */
  datatype SubscribeBody = SubscribeBody(message: string)

  /** `{success, data?, error?, status?}`. */
  datatype SubmitResult = SubmitResult(success: bool, data: Option<SubscribeBody>, error: Option<string>, status: Option<nat>)

  const DefaultFailure := "Subscription failed"
  const ConnectionFailure := "Failed to connect to the server"

  /**
   * The result for a reply. The body is parsed before the status is looked
   * at, so a body that is not JSON lands in the `catch` like a network error.
   */
  function SubmitNewsletter(reply: FetchReply<SubscribeBody>): (r: SubmitResult)
    ensures r.success <==> reply.Response? && reply.json.Some? && IsOkStatus(reply.status)
    ensures r.success ==> r.data == reply.json && r.error == None && r.status == None
    ensures !r.success ==> r.data == None && r.error.Some? && r.error.value != ""
    ensures reply.Response? && reply.json.Some? && !IsOkStatus(reply.status) ==>
      && r.status == Some(reply.status)
      && r.error == Some(if reply.json.value.message != "" then reply.json.value.message else DefaultFailure)
    ensures reply.Unreachable? || reply.json.None? ==> r.error == Some(ConnectionFailure) && r.status == None
  {
    match reply
    case Response(status, json) =>
      if json.None? then SubmitResult(false, None, Some(ConnectionFailure), None)
      else if IsOkStatus(status) then SubmitResult(true, json, None, None)
      else
        var body := json.value;
        SubmitResult(false, None, Some(if body.message != "" then body.message else DefaultFailure), Some(status))
    case Unreachable => SubmitResult(false, None, Some(ConnectionFailure), None)
  }

  /** A result carries a status exactly when the server answered with a readable failure. */
  lemma StatusOnlyForServerFailures(reply: FetchReply<SubscribeBody>)
    ensures SubmitNewsletter(reply).status.Some? <==>
      reply.Response? && reply.json.Some? && !IsOkStatus(reply.status)
  {
  }
}
