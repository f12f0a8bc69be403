/**
 * Values and pure decisions of the calling context
 * (frontend/src/contexts/CallContext.js): who a signalling message is
 * addressed to, which media a handler asks for, when a call-log patch is
 * due. The object whose fields the handlers update is CallSession.
 *
 * Every `socket.emit` is a Signal appended to an outbox, every call-log
 * REST request a LogRequest, every `getUserMedia` request the Constraints
 * it asks for. A local media stream is a value recording the enabled flag
 * of its first video and first audio track, if it has them.
 */
module CallModel {
  import opened Common

  /** The outcome of a call as written to the call log; Unset is "". */
  datatype CallStatus = Unset | Missed | Completed

  function StatusText(c: CallStatus): (r: string)
    ensures r == "" <==> c == Unset
  {
    match c
    case Unset => ""
    case Missed => "missed"
    case Completed => "completed"
  }

  /** `{ userId, name, profile, callType }`; every field may be undefined. */
  datatype Party = Party(userId: Option<string>, name: Option<string>, profile: Option<string>, callType: Option<string>)

  /** The initial `{}`. */
  const NoParty := Party(None, None, None, None)

  /** The incoming peer call; `answerable` is `typeof call.answer === "function"`. */
  datatype IncomingCall = IncomingCall(answerable: bool)

  /** A local stream: the enabled flag of its first video and first audio track, if any. */
  datatype LocalStream = LocalStream(video: Option<bool>, audio: Option<bool>)

  /** The constraints passed to getUserMedia. */
  datatype Constraints = Constraints(video: bool, audio: bool)

  /**
   * The armed 30-second no-answer timeout. Its callback closes over the
   * recipient id and over the value `isCallActive` had when the call was
   * placed, not over the live flag.
   */
  datatype PendingTimeout = PendingTimeout(to: Option<string>, activeAtStart: bool)

  /**
   * The values a handleHangUp closure reads: those of the render it was
   * created in. The hang-up button runs the current render's; a peer
   * call's "close" handler runs the one of the render that placed or
   * answered the call.
   */
  datatype HangUpView = HangUpView(callerDetails: Party, isCallActive: bool, myPeerId: string, selectedChatUserId: string)

  /** A message sent on the signalling socket. */
  datatype Signal =
    | CallUser(from: string, to: Option<string>, callType: string)
    | CallAccepted(acceptedFrom: Option<string>, acceptedType: string)
    | CallRejected(rejectedFrom: Option<string>)
    | CallEnded(endedFrom: string, endedTo: Option<string>)
    | CallNotAnswered(notAnsweredTo: Option<string>)
    | VideoStatus(videoTo: string, videoOn: bool)
    | AudioStatus(audioTo: string, audioOn: bool)

  /** A request to the call-log backend: create an entry, or patch one. */
  datatype LogRequest =
    | CreateLog(callerId: string, receiverId: Option<string>, logType: string)
    | UpdateLog(id: string, status: string, endedAt: string)

  /** handleCallEnded's condition for recording a completed call. */
  predicate EndedByOther(from: Option<string>, ownUserId: string) {
    Truthy(from) && from.value != ownUserId
  }

  /** acceptCall's guard: a stored incoming call that can be answered. */
  predicate CanAnswer(incoming: Option<IncomingCall>) {
    incoming.Some? && incoming.value.answerable
  }

  /** The constraints acceptCall asks for: video iff a video call, audio always. */
  function AcceptConstraints(callType: string): (c: Constraints)
    ensures c.video <==> callType == "video"
    ensures c.audio
  {
    Constraints(callType == "video", true)
  }

  /**
   * The constraints initiateCall asks for. They read the audio/video flags
   * of the render in which the call was placed: the resets to true made
   * earlier in the same handler are not yet visible to it.
   */
  function InitiateConstraints(callType: string, videoEnabled: bool, audioEnabled: bool): (c: Constraints)
    ensures c.video <==> callType == "video" && videoEnabled
    ensures c.audio == audioEnabled
  {
    Constraints(callType == "video" && videoEnabled, audioEnabled)
  }

  /**
   * The `to` of handleHangUp's "call-ended": none when `id` is the other
   * party's own id, otherwise the other party, or the selected chat user
   * when the other party's id is unset or empty.
   */
  function HangUpRecipient(details: Party, id: string, selectedChatUserId: string): (to: Option<string>)
    ensures to.None? <==> details.userId == Some(id)
    ensures to.Some? && Truthy(details.userId) ==> to.value == details.userId.value
    ensures to.Some? && !Truthy(details.userId) ==> to.value == selectedChatUserId
  {
    if details.userId != Some(id) then Some(OrElse(details.userId, selectedChatUserId)) else None
  }

  /**
   * The `to` of a media-status message: the selected chat user when `id`
   * is the other party's id, otherwise the other party, or this peer when
   * the other party's id is unset or empty.
   */
  function StatusRecipient(details: Party, id: string, selectedChatUserId: string, myPeerId: string): (to: string)
    ensures details.userId == Some(id) ==> to == selectedChatUserId
    ensures details.userId != Some(id) && Truthy(details.userId) ==> to == details.userId.value
    ensures details.userId != Some(id) && !Truthy(details.userId) ==> to == myPeerId
  {
    if details.userId == Some(id) then selectedChatUserId else OrElse(details.userId, myPeerId)
  }

  /**
   * Hanging up and toggling address the other party alike: whenever
   * hang-up has a recipient and the other party's id is set, both go to it.
   */
  lemma RecipientsAgree(details: Party, id: string, sel: string, myPeerId: string)
    requires details.userId != Some(id) && Truthy(details.userId)
    ensures HangUpRecipient(details, id, sel) == Some(StatusRecipient(details, id, sel, myPeerId))
  {
  }

  /**
   * The effect on [callStatus, callId, callEndAt] together with
   * updateCallLogs' own check: the patch sent, if any. It is sent only
   * when all three are non-empty.
   */
  function LogUpdate(callStatus: CallStatus, callId: string, callEndAt: string): (r: Option<LogRequest>)
    ensures r.Some? <==> callStatus != Unset && callId != "" && callEndAt != ""
    ensures r.Some? ==> r.value == UpdateLog(callId, StatusText(callStatus), callEndAt)
  {
    if StatusText(callStatus) != "" && callId != "" && callEndAt != "" then
      if callId == "" || StatusText(callStatus) == "" then None
      else Some(UpdateLog(callId, StatusText(callStatus), callEndAt))
    else None
  }

  /**
   * The call-log invariant of the context: an end time is only recorded
   * together with "completed", and the status is only reset together with
   * the end time.
   */
  predicate LogFieldsConsistent(callStatus: CallStatus, callEndAt: string) {
    && (callStatus == Completed ==> callEndAt != "")
    && (callEndAt != "" ==> callStatus != Unset)
  }

  /** Under the invariant a patch is due exactly when an id and an end time are known. */
  lemma LogUpdateUnderInvariant(callStatus: CallStatus, callId: string, callEndAt: string)
    requires LogFieldsConsistent(callStatus, callEndAt)
    ensures LogUpdate(callStatus, callId, callEndAt).Some? <==> callId != "" && callEndAt != ""
  {
  }
}
