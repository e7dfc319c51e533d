/**
 * The bot's wrappers around its remote collaborators. Each remote answer is an
 * input; each wrapper decides which failures it absorbs and which it lets through.
 */
module Collaborators {
  import opened Wrappers
  import opened Errors

  // ---- users_info: KitchenRequestBot.get_user_info (main.py:166-173) ----

  datatype UserReply =
    | UserFound(realName: string)  // result['user']['real_name']
    | UserApiError(code: string)   // the SDK raised SlackApiError
    | UserFault                    // any other exception, a missing key included

  /** The display name; a SlackApiError degrades to the raw user id, anything else propagates. */
  function GetUserInfo(userId: string, reply: UserReply): (r: Result<string, Exc>)
    ensures r.Err? <==> reply.UserFault?
    ensures r.Err? ==> r.error == OtherError
    ensures reply.UserApiError? ==> r == Ok(userId)
    ensures reply.UserFound? ==> r == Ok(reply.realName)
  {
    match reply
    case UserFound(realName) => Ok(realName)
    case UserApiError(_) => Ok(userId)
    case UserFault => Err(OtherError)
  }

  // ---- the completion service: LlmParser.parse_message (main.py:22-52) ----

  /** An element of the reply's "items" list (Unnamed: the element has no "name" key). */
  datatype Item = Named(name: string) | Unnamed

  /** The decoded completion: an object with an "items" list, or any other JSON value. */
  datatype Parsed = ItemsObject(items: seq<Item>) | OtherJson

  /**
   * The completion call: the decoded content, or a failure anywhere in the HTTP request,
   * the status check, the reply's shape or the JSON decoding.
   */
  datatype LlmReply = Completion(json: Parsed) | CompletionFailure

  /** parse_message never raises: any failure gives {"items": []}. */
  function ParseMessage(reply: LlmReply): (r: Parsed)
    ensures reply.CompletionFailure? ==> r == ItemsObject([])
    ensures reply.Completion? ==> r == reply.json
  {
    match reply
    case Completion(json) => json
    case CompletionFailure => ItemsObject([])
  }

  // ---- DM delivery: _open_dm_channel and send_file_via_dm (main.py:115-140) ----

  datatype OpenReply =
    | ChannelOpened(id: string)   // response['channel']['id']
    | OpenApiError(code: string)  // the SDK raised SlackApiError
    | OpenFault                   // any other exception, a missing key included

  /** The upload request files_upload_v2 receives; the file's bytes are opaque here. */
  datatype UploadRequest = UploadRequest(channel: string, filename: string, title: string)

  datatype UploadReply = UploadDone | UploadApiError(code: string) | UploadFault

  const ReportTitle: string := "Your Order Requests Report"

  /** The DM channel id, None after a SlackApiError; other exceptions propagate. */
  function OpenDmChannel(reply: OpenReply): (r: Result<Option<string>, Exc>)
    ensures r.Err? <==> reply.OpenFault?
    ensures r.Ok? ==> (r.value.Some? <==> reply.ChannelOpened?)
    ensures r.Ok? && r.value.Some? ==> r.value.value == reply.id
    ensures r.Err? ==> r.error == OtherError
  {
    match reply
    case ChannelOpened(id) => Ok(Some(id))
    case OpenApiError(_) => Ok(None)
    case OpenFault => Err(OtherError)
  }

  /** `if not dm_channel`: no channel, or an empty id. */
  predicate NoChannel(channel: Option<string>) {
    channel.None? || channel.value == ""
  }

  /**
   * Opens a DM with the user and uploads the report there. The answer is true exactly
   * when a channel opened and the upload completed; without a channel the upload is
   * never requested; and no SlackApiError ever escapes.
   */
  function SendFileViaDm(userId: string, filename: string,
                         open: string -> OpenReply, upload: UploadRequest -> UploadReply): (r: Result<bool, Exc>)
    ensures r == Ok(true) <==>
              open(userId).ChannelOpened? && open(userId).id != "" &&
              upload(UploadRequest(open(userId).id, filename, ReportTitle)) == UploadDone
    ensures !(open(userId).ChannelOpened? && open(userId).id != "") ==>
              r == if open(userId).OpenFault? then Err(OtherError) else Ok(false)
    ensures r.Err? <==>
              open(userId).OpenFault? ||
              (open(userId).ChannelOpened? && open(userId).id != "" &&
               upload(UploadRequest(open(userId).id, filename, ReportTitle)).UploadFault?)
    ensures (open(userId).ChannelOpened? && open(userId).id != "" &&
             upload(UploadRequest(open(userId).id, filename, ReportTitle)).UploadApiError?) ==> r == Ok(false)
    ensures r.Err? ==> r.error == OtherError
  {
    match OpenDmChannel(open(userId))
    case Err(e) => Err(e)
    case Ok(dmChannel) =>
      if NoChannel(dmChannel) then Ok(false)
      else
        match upload(UploadRequest(dmChannel.value, filename, ReportTitle))
        case UploadDone => Ok(true)
        case UploadApiError(_) => Ok(false)
        case UploadFault => Err(OtherError)
  }

  /**
   * Without a usable DM channel the result is the same whatever the upload service would
   * have answered: the upload is never attempted.
   */
  lemma NoChannelNoUpload(userId: string, filename: string, open: string -> OpenReply,
                          upload1: UploadRequest -> UploadReply, upload2: UploadRequest -> UploadReply)
    requires !(open(userId).ChannelOpened? && open(userId).id != "")
    ensures SendFileViaDm(userId, filename, open, upload1) == SendFileViaDm(userId, filename, open, upload2)
  {
  }
}
