/**
 * The values the core exchanges with the chat platform (requests it sends,
 * replies it gets) and the errors it reports. The platform itself is not
 * modelled: every call into it is an oracle whose reply is given.
 */
module Discord {
  import opened Wrappers
  import opened Text

  /** An error value returned by a platform call. */
  datatype CallError = CallError(message: Bytes)

  /** What a platform call returned: nil, or an error. */
  type Reply = Outcome<CallError>

  /** The errors the core produces. */
  datatype Error =
    | CanceledBeforeRequest          // "edit channel canceled before request"
    | CanceledAfterRequest           // "edit channel canceled after request"
    | EditRejected(cause: CallError) // the error of `ChannelEdit`, returned as it is
    | SetStatusFailed(cause: CallError) // "failed to set status: %w"

  /** `discordgo.ChannelEdit` as sent: an absent field is not part of the request. */
  datatype ChannelEdit = ChannelEdit(name: Option<Bytes>, topic: Option<Bytes>)

  /** One `ChannelEdit` call: the channel (or category) id and the fields. */
  datatype EditRequest = EditRequest(id: Bytes, edit: ChannelEdit)

  /** The status mode of `UpdateStatusData`: "idle" or "online". */
  datatype Mode = Idle | Online

  /** A custom activity (`ActivityTypeCustom`) with its name and state texts. */
  datatype Activity = Activity(name: Bytes, state: Bytes)

  /** `discordgo.UpdateStatusData` as the core fills it. */
  datatype StatusData = StatusData(status: Mode, activities: seq<Activity>)
}
