/**
 * `editChannel`: the guards in front of the platform's `ChannelEdit` call and
 * the cancellation checks around it. The request context is seen through two
 * observations, whether it was done just before and just after the call.
 */
module Edit {
  import opened Wrappers
  import opened Text
  import opened Discord

  /** What the environment of one `editChannel` call does. */
  datatype EditEnv = EditEnv(doneBefore: bool, doneAfter: bool, reply: Reply)

  /** The request sent to the platform, if any, and the error returned. */
  datatype EditResult = EditResult(request: Option<EditRequest>, err: Option<Error>)

  /** The fields of the edit: each only if its text is not empty. */
  function EditFields(name: Bytes, description: Bytes): (e: ChannelEdit)
    ensures e.name.Some? <==> name != []
    ensures e.topic.Some? <==> description != []
    ensures e.name.Some? ==> e.name.value == name
    ensures e.topic.Some? ==> e.topic.value == description
  {
    ChannelEdit(if name != [] then Some(name) else None, if description != [] then Some(description) else None)
  }

  /** Whether `editChannel` has anything to do at all. */
  predicate HasWork(id: Bytes, name: Bytes, description: Bytes) {
    id != [] && (name != [] || description != [])
  }

  /**
   * `editChannel(ctx, ds, id, name, description)`. A name longer than 25 bytes
   * is only logged, so it plays no part in the result.
   */
  function EditChannel(id: Bytes, name: Bytes, description: Bytes, env: EditEnv): (r: EditResult)
    // nothing to do: no request, no error
    ensures !HasWork(id, name, description) ==> r == EditResult(None, None)
    // a request is made exactly when there is work and the context was still live
    ensures r.request.Some? <==> HasWork(id, name, description) && !env.doneBefore
    ensures r.request.Some? ==> r.request.value == EditRequest(id, EditFields(name, description))
    // cancellation before the call wins over everything after it
    ensures HasWork(id, name, description) && env.doneBefore ==> r.err == Some(CanceledBeforeRequest)
    // cancellation after the call hides whatever the platform answered
    ensures r.request.Some? && env.doneAfter ==> r.err == Some(CanceledAfterRequest)
    // otherwise the platform's own answer is returned
    ensures r.request.Some? && !env.doneAfter ==>
      r.err == (if env.reply.Fail? then Some(EditRejected(env.reply.error)) else None)
    // success, in one line
    ensures r.err.None? <==> !HasWork(id, name, description) || (!env.doneBefore && !env.doneAfter && env.reply.Pass?)
  {
    if id == [] then EditResult(None, None)
    else if name == [] && description == [] then EditResult(None, None)
    else if env.doneBefore then EditResult(None, Some(CanceledBeforeRequest))
    else
      var request := EditRequest(id, EditFields(name, description));
      if env.doneAfter then EditResult(Some(request), Some(CanceledAfterRequest))
      else match env.reply
        case Fail(e) => EditResult(Some(request), Some(EditRejected(e)))
        case Pass => EditResult(Some(request), None)
  }
}
