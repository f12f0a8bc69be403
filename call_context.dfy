/**
 * The calling context (frontend/src/contexts/CallContext.js) as an object:
 * one field per piece of React state or ref the call handlers touch, and
 * one method per handler. Each method names in its `modifies` clause
 * exactly the fields the handler sets and states their new values, so
 * every other field keeps its value.
 *
 * The socket outbox, the call-log requests and the media requests are
 * fields too; the peer connection, the browser's media devices, the
 * clock and the REST backend are not part of the object: what they
 * deliver arrives as method parameters.
 */
module CallSession {
  import opened Common
  import opened CallModel
  import Duration

  class CallContext {
    /** The signed-in user's id (`user.userId`). */
    const ownUserId: string
    var myPeerId: string
    var incomingCall: Option<IncomingCall>
    var isCalling: bool
    var isCallActive: bool
    var playRingtone: bool
    var isRinging: bool
    var callNotAnswered: bool
    var callerDetails: Party
    var currentCallType: Option<string>
    var displayDuration: string
    /** callDurationRef */
    var callDuration: string
    var videoEnabled: bool
    var audioEnabled: bool
    var videoStatusOfPartner: bool
    var audioStatusOfPartner: bool
    var isMinimize: bool
    var onCallClose: bool
    var callId: string
    var callStatus: CallStatus
    var callEndAt: string
    var recipientUser: Party
    /** currentStream.current */
    var currentStream: Option<LocalStream>
    /** peerStream.current is set */
    var hasPeerStream: bool
    /** timeOut.current, while armed */
    var timeout: Option<PendingTimeout>
    /** timerIntervalRef.current is set */
    var timerRunning: bool
    /** What the current peer call's "close" handler closed over, once registered. */
    var closeView: Option<HangUpView>
    var outbox: seq<Signal>
    var logRequests: seq<LogRequest>
    var mediaRequests: seq<Constraints>

    ghost predicate Valid()
      reads this`callStatus, this`callEndAt
    {
      LogFieldsConsistent(callStatus, callEndAt)
    }

    /** What removeStreaming leaves behind. */
    predicate StreamsReleased()
      reads this`currentStream, this`hasPeerStream, this`timeout, this`audioEnabled, this`videoEnabled,
            this`audioStatusOfPartner, this`videoStatusOfPartner
    {
      && currentStream.None? && !hasPeerStream && timeout.None?
      && audioEnabled && videoEnabled && audioStatusOfPartner && videoStatusOfPartner
    }

    /**
     * What stopCallTimer leaves behind: no interval, and the display of a
     * zero duration ("00:00" is Duration.FormatDuration(0), see
     * Duration.ResetDisplayIsZero).
     */
    predicate TimerReset()
      reads this`timerRunning, this`displayDuration, this`callDuration
    {
      !timerRunning && displayDuration == callDuration == "00:00"
    }

    /** Not ringing, not calling, no active call and no stored incoming call. */
    predicate Idle()
      reads this`isCallActive, this`isCalling, this`isRinging, this`incomingCall
    {
      !isCallActive && !isCalling && !isRinging && incomingCall.None?
    }

    /** What the handleHangUp of the current render reads. */
    function LiveView(selectedChatUserId: string): (v: HangUpView)
      reads this`callerDetails, this`isCallActive, this`myPeerId
      ensures v.callerDetails == callerDetails && v.isCallActive == isCallActive
      ensures v.myPeerId == myPeerId && v.selectedChatUserId == selectedChatUserId
    {
      HangUpView(callerDetails, isCallActive, myPeerId, selectedChatUserId)
    }

    /** The patch the log effect would send now, if any. */
    function PendingLogUpdate(): Option<LogRequest>
      reads this`callStatus, this`callId, this`callEndAt
    {
      LogUpdate(callStatus, callId, callEndAt)
    }

    constructor (userId: string)
      ensures Valid() && Idle() && TimerReset()
      ensures ownUserId == userId && myPeerId == "" && callerDetails == NoParty && recipientUser == NoParty
      ensures !playRingtone && !callNotAnswered && !isMinimize && !onCallClose && currentCallType.None?
      ensures currentStream.None? && !hasPeerStream && timeout.None? && closeView.None?
      ensures audioEnabled && videoEnabled && audioStatusOfPartner && videoStatusOfPartner
      ensures callId == "" && callStatus == Unset && callEndAt == ""
      ensures outbox == [] && logRequests == [] && mediaRequests == []
    {
      ownUserId := userId;
      myPeerId := "";
      incomingCall := None;
      isCalling, isCallActive, playRingtone, isRinging, callNotAnswered := false, false, false, false, false;
      callerDetails := NoParty;
      currentCallType := None;
      displayDuration, callDuration := "00:00", "00:00";
      videoEnabled, audioEnabled, videoStatusOfPartner, audioStatusOfPartner := true, true, true, true;
      isMinimize, onCallClose := false, false;
      callId, callStatus, callEndAt := "", Unset, "";
      recipientUser := NoParty;
      currentStream, hasPeerStream, timeout, timerRunning, closeView := None, false, None, false, None;
      outbox, logRequests, mediaRequests := [], [], [];
    }

    // -------------------------------------------------------------------------
    // Streams and the call timer

    /** removeStreaming: cancel the timeout, drop both streams, reset the four media flags. */
    method RemoveStreaming()
      modifies this`timeout, this`hasPeerStream, this`currentStream, this`audioEnabled, this`videoEnabled,
               this`audioStatusOfPartner, this`videoStatusOfPartner
      ensures StreamsReleased()
      ensures old(StreamsReleased()) ==>
                && timeout == old(timeout) && hasPeerStream == old(hasPeerStream) && currentStream == old(currentStream)
                && audioEnabled == old(audioEnabled) && videoEnabled == old(videoEnabled)
                && audioStatusOfPartner == old(audioStatusOfPartner) && videoStatusOfPartner == old(videoStatusOfPartner)
    {
      timeout := None;
      hasPeerStream := false;
      if currentStream.Some? {
        currentStream := None;
      }
      audioEnabled := true;
      videoEnabled := true;
      audioStatusOfPartner := true;
      videoStatusOfPartner := true;
    }

    /** startCallDuration: the one-second interval starts. */
    method StartCallDuration()
      modifies this`timerRunning
      ensures timerRunning
    {
      timerRunning := true;
    }

    /** One tick of the interval, `elapsed` whole seconds after it started. */
    method TimerTick(elapsed: nat)
      modifies this`callDuration, this`displayDuration
      ensures old(timerRunning) ==> displayDuration == callDuration == Duration.FormatDuration(elapsed)
      ensures !old(timerRunning) ==> displayDuration == old(displayDuration) && callDuration == old(callDuration)
    {
      if timerRunning {
        var text := Duration.FormatDuration(elapsed);
        callDuration := text;
        displayDuration := text;
      }
    }

    /** stopCallTimer: clear the interval and show "00:00" again. */
    method StopCallTimer()
      modifies this`timerRunning, this`callDuration, this`displayDuration
      ensures TimerReset()
      ensures old(TimerReset()) ==>
                timerRunning == old(timerRunning) && callDuration == old(callDuration) && displayDuration == old(displayDuration)
    {
      if timerRunning {
        timerRunning := false;
      }
      callDuration := "00:00";
      displayDuration := "00:00";
    }

    // -------------------------------------------------------------------------
    // Peer and socket handlers

    /** peer "open": the id the peer server assigned. */
    method PeerOpen(id: string)
      modifies this`myPeerId
      ensures myPeerId == id
    {
      myPeerId := id;
    }

    /** peer "call": a call arrives and is kept for answering. */
    method PeerCall(call: IncomingCall)
      modifies this`incomingCall
      ensures incomingCall == Some(call)
    {
      incomingCall := Some(call);
    }

    /** "call-invitation": ring and remember who is calling. */
    method HandleCallInvitation(from: Option<string>, name: Option<string>, profile: Option<string>, callType: Option<string>)
      modifies this`playRingtone, this`callNotAnswered, this`isCalling, this`callerDetails
      ensures playRingtone && !callNotAnswered && !isCalling
      ensures callerDetails == Party(from, name, profile, callType)
    {
      playRingtone := true;
      callNotAnswered := false;
      isCalling := false;
      callerDetails := Party(from, name, profile, callType);
    }

    /** "recipientUser-details": the called user's details replace callerDetails. */
    method HandleRecipientDetails(details: Party)
      modifies this`callerDetails
      ensures callerDetails == details
    {
      callerDetails := details;
    }

    /** "call-rejected" received: the other side declined. */
    method HandleCallRejected()
      requires Valid()
      modifies this`callNotAnswered, this`isMinimize, this`isRinging, this`callStatus,
               this`timeout, this`hasPeerStream, this`currentStream, this`audioEnabled, this`videoEnabled,
               this`audioStatusOfPartner, this`videoStatusOfPartner
      ensures Valid()
      ensures callNotAnswered && !isMinimize && !isRinging && callStatus == Missed && StreamsReleased()
    {
      callNotAnswered := true;
      RemoveStreaming();
      isMinimize := false;
      isRinging := false;
      callStatus := Missed;
    }

    /** "call-not-answered" received: the caller gave up. */
    method HandleCallNotAnswered()
      requires Valid()
      modifies this`incomingCall, this`playRingtone, this`isRinging, this`callStatus,
               this`timeout, this`hasPeerStream, this`currentStream, this`audioEnabled, this`videoEnabled,
               this`audioStatusOfPartner, this`videoStatusOfPartner
      ensures Valid()
      ensures incomingCall.None? && !playRingtone && !isRinging && callStatus == Missed && StreamsReleased()
    {
      incomingCall := None;
      playRingtone := false;
      isRinging := false;
      RemoveStreaming();
      callStatus := Missed;
    }

    /**
     * "call-ended" received at time `now`. The flags are always cleared; the
     * call is recorded as completed only when someone other than the
     * signed-in user ended it.
     */
    method HandleCallEnded(from: Option<string>, now: string)
      requires Valid() && now != ""
      modifies this`playRingtone, this`incomingCall, this`isCalling, this`isCallActive, this`isRinging,
               this`callStatus, this`callEndAt,
               this`timeout, this`hasPeerStream, this`currentStream, this`audioEnabled, this`videoEnabled,
               this`audioStatusOfPartner, this`videoStatusOfPartner
      ensures Valid()
      ensures Idle() && !playRingtone && StreamsReleased()
      ensures EndedByOther(from, ownUserId) ==> callStatus == Completed && callEndAt == now
      ensures !EndedByOther(from, ownUserId) ==> callStatus == old(callStatus) && callEndAt == old(callEndAt)
    {
      playRingtone := false;
      incomingCall := None;
      isCalling := false;
      RemoveStreaming();
      isCallActive := false;
      isRinging := false;
      if EndedByOther(from, ownUserId) {
        callStatus := Completed;
        callEndAt := now;
      }
    }

    /** "call-accepted" received: the ringing stops. */
    method HandleCallAccepted()
      modifies this`isRinging
      ensures !isRinging
    {
      isRinging := false;
    }

    /** "video-status" received. */
    method HandleVideoStatus(status: bool)
      modifies this`videoStatusOfPartner
      ensures videoStatusOfPartner == status
    {
      videoStatusOfPartner := status;
    }

    /** "audio-status" received. */
    method HandleAudioStatus(status: bool)
      modifies this`audioStatusOfPartner
      ensures audioStatusOfPartner == status
    {
      audioStatusOfPartner := status;
    }

    // -------------------------------------------------------------------------
    // User actions

    /**
     * acceptCall(callType). Without an answerable stored call only the
     * timeout is cancelled. `media` is what getUserMedia yields if it is
     * asked (None: the browser refused and the handler stops in its catch).
     */
    method AcceptCall(callType: string, selectedChatUserId: string, media: Option<LocalStream>)
      modifies this`timeout, this`playRingtone, this`currentCallType, this`mediaRequests,
               this`currentStream, this`incomingCall, this`outbox, this`closeView
      ensures timeout.None?
      ensures !CanAnswer(old(incomingCall)) ==>
                && playRingtone == old(playRingtone) && currentCallType == old(currentCallType)
                && mediaRequests == old(mediaRequests) && currentStream == old(currentStream)
                && incomingCall == old(incomingCall) && outbox == old(outbox) && closeView == old(closeView)
      ensures CanAnswer(old(incomingCall)) ==> !playRingtone && currentCallType == Some(callType)
      ensures CanAnswer(old(incomingCall)) && old(currentStream).Some? ==> mediaRequests == old(mediaRequests)
      ensures CanAnswer(old(incomingCall)) && old(currentStream).None? ==>
                mediaRequests == old(mediaRequests) + [AcceptConstraints(callType)]
      ensures CanAnswer(old(incomingCall)) && (old(currentStream).Some? || media.Some?) ==>
                && currentStream == (if old(currentStream).Some? then old(currentStream) else media)
                && incomingCall.None?
                && closeView == Some(LiveView(selectedChatUserId))
                && outbox == old(outbox) + [CallAccepted(callerDetails.userId, callType)]
      ensures CanAnswer(old(incomingCall)) && old(currentStream).None? && media.None? ==>
                && currentStream.None? && incomingCall == old(incomingCall) && outbox == old(outbox)
                && closeView == old(closeView)
    {
      timeout := None;
      if !CanAnswer(incomingCall) {
        return;
      }
      playRingtone := false;
      currentCallType := Some(callType);
      if currentStream.None? {
        mediaRequests := mediaRequests + [AcceptConstraints(callType)];
        if media.None? {
          return;
        }
        currentStream := media;
      }
      incomingCall := None;
      closeView := Some(LiveView(selectedChatUserId));
      outbox := outbox + [CallAccepted(callerDetails.userId, callType)];
    }

    /** The answered call's "stream" event: the call is active and timed. */
    method AnsweredStream()
      modifies this`hasPeerStream, this`isCallActive, this`isCalling, this`callNotAnswered, this`timerRunning
      ensures hasPeerStream && isCallActive && isCalling && !callNotAnswered && timerRunning
    {
      hasPeerStream := true;
      isCallActive := true;
      isCalling := true;
      callNotAnswered := false;
      StartCallDuration();
    }

    /**
     * The first half of handleHangUp(id) at time `now`, reading `view`:
     * unless `id` is the other party's id, record the call as "completed"
     * at `now` when it is active and as "missed" otherwise. Returns the
     * "call-ended" recipient.
     */
    method RecordHangUp(id: string, view: HangUpView, now: string) returns (to: Option<string>)
      requires Valid() && now != ""
      modifies this`callStatus, this`callEndAt
      ensures Valid()
      ensures to == HangUpRecipient(view.callerDetails, id, view.selectedChatUserId)
      ensures view.callerDetails.userId == Some(id) ==> callStatus == old(callStatus) && callEndAt == old(callEndAt)
      ensures view.callerDetails.userId != Some(id) && view.isCallActive ==> callStatus == Completed && callEndAt == now
      ensures view.callerDetails.userId != Some(id) && !view.isCallActive ==>
                callStatus == Missed && callEndAt == old(callEndAt)
    {
      to := None;
      if view.callerDetails.userId != Some(id) {
        to := Some(OrElse(view.callerDetails.userId, view.selectedChatUserId));
        if view.isCallActive {
          callStatus := Completed;
          callEndAt := now;
        } else {
          callStatus := Missed;
        }
      }
    }

    /**
     * handleHangUp(id) at time `now`, as the closure that reads `view`
     * (LiveView for the hang-up button): record the outcome, send
     * "call-ended", and tear everything down.
     */
    method HandleHangUp(id: string, view: HangUpView, now: string)
      requires Valid() && now != ""
      modifies this`callStatus, this`callEndAt, this`outbox,
               this`timeout, this`hasPeerStream, this`currentStream, this`audioEnabled, this`videoEnabled,
               this`audioStatusOfPartner, this`videoStatusOfPartner,
               this`isCallActive, this`isCalling, this`isRinging, this`incomingCall,
               this`timerRunning, this`callDuration, this`displayDuration
      ensures Valid()
      ensures Idle() && StreamsReleased() && TimerReset()
      ensures view.callerDetails.userId == Some(id) ==> callStatus == old(callStatus) && callEndAt == old(callEndAt)
      ensures view.callerDetails.userId != Some(id) && view.isCallActive ==> callStatus == Completed && callEndAt == now
      ensures view.callerDetails.userId != Some(id) && !view.isCallActive ==>
                callStatus == Missed && callEndAt == old(callEndAt)
      ensures outbox == old(outbox) + [CallEnded(id, HangUpRecipient(view.callerDetails, id, view.selectedChatUserId))]
    {
      var to := RecordHangUp(id, view, now);
      outbox := outbox + [CallEnded(id, to)];
      TearDown();
    }

    /** The second half of handleHangUp: release the streams, clear the call flags, stop the timer. */
    method TearDown()
      modifies this`timeout, this`hasPeerStream, this`currentStream, this`audioEnabled, this`videoEnabled,
               this`audioStatusOfPartner, this`videoStatusOfPartner,
               this`isCallActive, this`isCalling, this`isRinging, this`incomingCall,
               this`timerRunning, this`callDuration, this`displayDuration
      ensures Idle() && StreamsReleased() && TimerReset()
    {
      RemoveStreaming();
      isCallActive := false;
      isCalling := false;
      isRinging := false;
      incomingCall := None;
      StopCallTimer();
      timeout := None;
    }

    /**
     * The current peer call's "close" event: its handler hangs up as the
     * captured peer id with the captured view, and stops the timer again.
     * Nothing happens while no handler is registered.
     */
    method CallClosed(now: string)
      requires Valid() && now != ""
      modifies this`callStatus, this`callEndAt, this`outbox,
               this`timeout, this`hasPeerStream, this`currentStream, this`audioEnabled, this`videoEnabled,
               this`audioStatusOfPartner, this`videoStatusOfPartner,
               this`isCallActive, this`isCalling, this`isRinging, this`incomingCall,
               this`timerRunning, this`callDuration, this`displayDuration
      ensures Valid()
      ensures old(closeView).Some? ==>
                var v := closeView.value;
                && Idle() && StreamsReleased() && TimerReset()
                && (v.callerDetails.userId == Some(v.myPeerId) ==> callStatus == old(callStatus) && callEndAt == old(callEndAt))
                && (v.callerDetails.userId != Some(v.myPeerId) && v.isCallActive ==> callStatus == Completed && callEndAt == now)
                && (v.callerDetails.userId != Some(v.myPeerId) && !v.isCallActive ==>
                      callStatus == Missed && callEndAt == old(callEndAt))
                && outbox == old(outbox) + [CallEnded(v.myPeerId, HangUpRecipient(v.callerDetails, v.myPeerId, v.selectedChatUserId))]
      ensures old(closeView).None? ==> unchanged(this)
    {
      if closeView.None? {
        return;
      }
      var v := closeView.value;
      HandleHangUp(v.myPeerId, v, now);
      StopCallTimer();
      timeout := None;
    }

    /** rejectCall: decline the stored call and tell the caller. */
    method RejectCall()
      modifies this`incomingCall, this`playRingtone, this`isRinging, this`timeout, this`outbox
      ensures incomingCall.None? && !playRingtone && !isRinging && timeout.None?
      ensures outbox == old(outbox) + [CallRejected(callerDetails.userId)]
    {
      incomingCall := None;
      playRingtone := false;
      isRinging := false;
      timeout := None;
      outbox := outbox + [CallRejected(callerDetails.userId)];
    }

    /**
     * initiateCall(recipient, callType). While minimized it only restores
     * the call window. Otherwise it resets the call, asks for media (`media`
     * None: refused, and the handler stops), sends "call-user", asks the
     * backend to create a log entry and arms the no-answer timeout.
     */
    method InitiateCall(recipient: Party, callType: string, selectedChatUserId: string, media: Option<LocalStream>)
      requires Valid()
      modifies this`recipientUser, this`isMinimize, this`callNotAnswered, this`currentCallType,
               this`audioEnabled, this`videoEnabled, this`audioStatusOfPartner, this`videoStatusOfPartner,
               this`onCallClose, this`callEndAt, this`callStatus, this`callId, this`currentStream,
               this`mediaRequests, this`outbox, this`isCalling, this`isRinging, this`logRequests, this`timeout,
               this`closeView
      ensures Valid()
      ensures recipientUser == recipient && !isMinimize
      ensures old(isMinimize) ==>
                && callNotAnswered == old(callNotAnswered) && currentCallType == old(currentCallType)
                && audioEnabled == old(audioEnabled) && videoEnabled == old(videoEnabled)
                && audioStatusOfPartner == old(audioStatusOfPartner) && videoStatusOfPartner == old(videoStatusOfPartner)
                && onCallClose == old(onCallClose) && callEndAt == old(callEndAt) && callStatus == old(callStatus)
                && callId == old(callId) && currentStream == old(currentStream) && mediaRequests == old(mediaRequests)
                && outbox == old(outbox) && isCalling == old(isCalling) && isRinging == old(isRinging)
                && logRequests == old(logRequests) && timeout == old(timeout) && closeView == old(closeView)
      ensures !old(isMinimize) ==> NewCallStarted(recipient, callType, selectedChatUserId, media,
                                                  old(videoEnabled), old(audioEnabled), old(mediaRequests),
                                                  old(outbox), old(logRequests), old(timeout), old(isCalling),
                                                  old(isRinging), old(closeView))
    {
      recipientUser := recipient;
      if isMinimize {
        isMinimize := false;
        return;
      }
      StartNewCall(recipient, callType, selectedChatUserId, media);
    }

    /**
     * The state initiateCall leaves when it is not only restoring a
     * minimized window, in terms of the values before it ran.
     */
    predicate NewCallStarted(recipient: Party, callType: string, selectedChatUserId: string, media: Option<LocalStream>,
                             videoWas: bool, audioWas: bool, mediaRequestsWere: seq<Constraints>,
                             outboxWas: seq<Signal>, logRequestsWere: seq<LogRequest>, timeoutWas: Option<PendingTimeout>,
                             callingWas: bool, ringingWas: bool, closeViewWas: Option<HangUpView>)
      reads this
    {
      && callStatus == Unset && callId == "" && callEndAt == ""
      && !callNotAnswered && currentCallType == Some(callType) && !onCallClose && !isMinimize
      && audioEnabled && videoEnabled && audioStatusOfPartner && videoStatusOfPartner
      && mediaRequests == mediaRequestsWere + [InitiateConstraints(callType, videoWas, audioWas)]
      && (media.None? ==>
            && currentStream.None? && outbox == outboxWas && logRequests == logRequestsWere
            && timeout == timeoutWas && isCalling == callingWas && isRinging == ringingWas
            && closeView == closeViewWas)
      && (media.Some? ==>
            && currentStream == media && isCalling && isRinging
            && outbox == outboxWas + [CallUser(myPeerId, recipient.userId, callType)]
            && logRequests == logRequestsWere + [CreateLog(myPeerId, recipient.userId, callType)]
            && timeout == Some(PendingTimeout(recipient.userId, isCallActive))
            && closeView == Some(LiveView(selectedChatUserId)))
    }

    /**
     * initiateCall past the minimize check: reset, ask for media with the
     * flags of the render the call was placed in, and place the call if
     * the media was granted.
     */
    method StartNewCall(recipient: Party, callType: string, selectedChatUserId: string, media: Option<LocalStream>)
      modifies this`isMinimize, this`callNotAnswered, this`currentCallType,
               this`audioEnabled, this`videoEnabled, this`audioStatusOfPartner, this`videoStatusOfPartner,
               this`onCallClose, this`callEndAt, this`callStatus, this`callId, this`currentStream,
               this`mediaRequests, this`outbox, this`isCalling, this`isRinging, this`logRequests, this`timeout,
               this`closeView
      ensures Valid()
      ensures NewCallStarted(recipient, callType, selectedChatUserId, media,
                             old(videoEnabled), old(audioEnabled), old(mediaRequests),
                             old(outbox), old(logRequests), old(timeout), old(isCalling),
                             old(isRinging), old(closeView))
    {
      var constraints := InitiateConstraints(callType, videoEnabled, audioEnabled);
      ResetCall(callType);
      mediaRequests := mediaRequests + [constraints];
      if media.None? {
        return;
      }
      PlaceCall(recipient, callType, selectedChatUserId, media.value);
    }

    /** initiateCall's reset of the previous call before a new one is placed. */
    method ResetCall(callType: string)
      modifies this`callNotAnswered, this`currentCallType, this`audioEnabled, this`videoEnabled,
               this`audioStatusOfPartner, this`videoStatusOfPartner, this`isMinimize, this`onCallClose,
               this`callEndAt, this`callStatus, this`callId, this`currentStream
      ensures Valid()
      ensures callStatus == Unset && callId == "" && callEndAt == ""
      ensures !callNotAnswered && currentCallType == Some(callType) && !isMinimize && !onCallClose
      ensures audioEnabled && videoEnabled && audioStatusOfPartner && videoStatusOfPartner
      ensures currentStream.None?
    {
      callNotAnswered := false;
      currentCallType := Some(callType);
      audioEnabled := true;
      videoEnabled := true;
      audioStatusOfPartner := true;
      videoStatusOfPartner := true;
      isMinimize := false;
      onCallClose := false;
      callEndAt := "";
      callStatus := Unset;
      callId := "";
      if currentStream.Some? {
        currentStream := None;
      }
    }

    /**
     * initiateCall once the media stream is obtained: send "call-user", ask
     * for a log entry, arm the no-answer timeout and register the "close"
     * handler, both closing over the current render's values.
     */
    method PlaceCall(recipient: Party, callType: string, selectedChatUserId: string, media: LocalStream)
      modifies this`currentStream, this`outbox, this`isCalling, this`isRinging, this`logRequests, this`timeout,
               this`closeView
      ensures currentStream == Some(media) && isCalling && isRinging
      ensures outbox == old(outbox) + [CallUser(myPeerId, recipient.userId, callType)]
      ensures logRequests == old(logRequests) + [CreateLog(myPeerId, recipient.userId, callType)]
      ensures timeout == Some(PendingTimeout(recipient.userId, isCallActive))
      ensures closeView == Some(LiveView(selectedChatUserId))
    {
      currentStream := Some(media);
      outbox := outbox + [CallUser(myPeerId, recipient.userId, callType)];
      isCalling := true;
      isRinging := true;
      logRequests := logRequests + [CreateLog(myPeerId, recipient.userId, callType)];
      timeout := Some(PendingTimeout(recipient.userId, isCallActive));
      closeView := Some(LiveView(selectedChatUserId));
    }

    /** The placed call's "stream" event: active, timeout cancelled, timer started. */
    method PlacedStream()
      modifies this`hasPeerStream, this`isCallActive, this`timeout, this`timerRunning
      ensures hasPeerStream && isCallActive && timeout.None? && timerRunning
    {
      hasPeerStream := true;
      isCallActive := true;
      timeout := None;
      StartCallDuration();
    }

    /**
     * The 30-second timeout fires, if still armed. Its closure tests the
     * `isCallActive` of the moment the call was placed.
     */
    method TimeoutFired()
      modifies this`outbox, this`callNotAnswered, this`isRinging,
               this`timeout, this`hasPeerStream, this`currentStream, this`audioEnabled, this`videoEnabled,
               this`audioStatusOfPartner, this`videoStatusOfPartner
      ensures timeout.None?
      ensures old(timeout).None? || old(timeout).value.activeAtStart ==>
                && outbox == old(outbox) && callNotAnswered == old(callNotAnswered) && isRinging == old(isRinging)
                && hasPeerStream == old(hasPeerStream) && currentStream == old(currentStream)
                && audioEnabled == old(audioEnabled) && videoEnabled == old(videoEnabled)
                && audioStatusOfPartner == old(audioStatusOfPartner) && videoStatusOfPartner == old(videoStatusOfPartner)
      ensures old(timeout).Some? && !old(timeout).value.activeAtStart ==>
                && outbox == old(outbox) + [CallNotAnswered(old(timeout).value.to)]
                && callNotAnswered && !isRinging && StreamsReleased()
    {
      if timeout.None? {
        return;
      }
      var pending := timeout.value;
      timeout := None;
      if !pending.activeAtStart {
        outbox := outbox + [CallNotAnswered(pending.to)];
        callNotAnswered := true;
        isRinging := false;
        RemoveStreaming();
      }
    }

    /**
     * toggleVideo(id). Without a local stream, or without a video track,
     * nothing changes and nothing is sent; otherwise the track is flipped,
     * the local flag follows it and the new value is sent.
     */
    method ToggleVideo(id: string, selectedChatUserId: string)
      modifies this`currentStream, this`videoEnabled, this`outbox
      ensures old(currentStream).None? || old(currentStream).value.video.None? ==>
                currentStream == old(currentStream) && videoEnabled == old(videoEnabled) && outbox == old(outbox)
      ensures old(currentStream).Some? && old(currentStream).value.video.Some? ==>
                var on := !old(currentStream).value.video.value;
                && currentStream == Some(old(currentStream).value.(video := Some(on)))
                && videoEnabled == on
                && outbox == old(outbox) + [VideoStatus(StatusRecipient(callerDetails, id, selectedChatUserId, myPeerId), on)]
    {
      if currentStream.None? {
        return;
      }
      var to := StatusRecipient(callerDetails, id, selectedChatUserId, myPeerId);
      var stream := currentStream.value;
      if stream.video.Some? {
        var on := !stream.video.value;
        currentStream := Some(stream.(video := Some(on)));
        videoEnabled := on;
        outbox := outbox + [VideoStatus(to, on)];
      }
    }

    /** toggleAudio(id): the same for the first audio track. */
    method ToggleAudio(id: string, selectedChatUserId: string)
      modifies this`currentStream, this`audioEnabled, this`outbox
      ensures old(currentStream).None? || old(currentStream).value.audio.None? ==>
                currentStream == old(currentStream) && audioEnabled == old(audioEnabled) && outbox == old(outbox)
      ensures old(currentStream).Some? && old(currentStream).value.audio.Some? ==>
                var on := !old(currentStream).value.audio.value;
                && currentStream == Some(old(currentStream).value.(audio := Some(on)))
                && audioEnabled == on
                && outbox == old(outbox) + [AudioStatus(StatusRecipient(callerDetails, id, selectedChatUserId, myPeerId), on)]
    {
      if currentStream.None? {
        return;
      }
      var to := StatusRecipient(callerDetails, id, selectedChatUserId, myPeerId);
      var stream := currentStream.value;
      if stream.audio.Some? {
        var on := !stream.audio.value;
        currentStream := Some(stream.(audio := Some(on)));
        audioEnabled := on;
        outbox := outbox + [AudioStatus(to, on)];
      }
    }

    // -------------------------------------------------------------------------
    // Call logs

    /** storeCallLogs' reply: the id of the created log entry. */
    method CallLogCreated(id: string)
      modifies this`callId
      ensures callId == id
    {
      callId := id;
    }

    /** The effect on [callStatus, callId, callEndAt]: send the patch if one is due. */
    method SyncCallLog()
      modifies this`logRequests
      ensures PendingLogUpdate().Some? ==> logRequests == old(logRequests) + [PendingLogUpdate().value]
      ensures PendingLogUpdate().None? ==> logRequests == old(logRequests)
    {
      if callStatus != Unset && callId != "" && callEndAt != "" {
        logRequests := logRequests + [UpdateLog(callId, StatusText(callStatus), callEndAt)];
      }
    }
  }

  // ---------------------------------------------------------------------------
  // Consequences over several handlers

  /** Toggling video twice restores the track and sends the two opposite statuses to one peer. */
  method ToggleVideoTwice(c: CallContext, id: string, sel: string)
    requires c.currentStream.Some? && c.currentStream.value.video.Some?
    modifies c
    ensures c.currentStream == old(c.currentStream)
    ensures c.videoEnabled == old(c.currentStream).value.video.value
    ensures var to := StatusRecipient(c.callerDetails, id, sel, c.myPeerId);
            var was := old(c.currentStream).value.video.value;
            c.outbox == old(c.outbox) + [VideoStatus(to, !was), VideoStatus(to, was)]
  {
    c.ToggleVideo(id, sel);
    c.ToggleVideo(id, sel);
  }

  /** Toggling audio twice restores the track and sends the two opposite statuses to one peer. */
  method ToggleAudioTwice(c: CallContext, id: string, sel: string)
    requires c.currentStream.Some? && c.currentStream.value.audio.Some?
    modifies c
    ensures c.currentStream == old(c.currentStream)
    ensures c.audioEnabled == old(c.currentStream).value.audio.value
    ensures var to := StatusRecipient(c.callerDetails, id, sel, c.myPeerId);
            var was := old(c.currentStream).value.audio.value;
            c.outbox == old(c.outbox) + [AudioStatus(to, !was), AudioStatus(to, was)]
  {
    c.ToggleAudio(id, sel);
    c.ToggleAudio(id, sel);
  }

  /**
   * A placed call that receives its log id and whose peer call closes
   * before the partner's stream arrives is recorded as "missed", yet no
   * patch is due: the end time stays "" from initiateCall's reset.
   */
  method MissedCallIsNotPatched(c: CallContext, recipient: Party, callType: string, media: LocalStream,
                                logId: string, sel: string, now: string)
    requires c.Valid() && !c.isMinimize && !c.isCallActive && now != ""
    requires c.callerDetails.userId != Some(c.myPeerId)
    modifies c
    ensures c.Valid() && c.callStatus == Missed && c.PendingLogUpdate().None?
  {
    c.InitiateCall(recipient, callType, sel, Some(media));
    c.CallLogCreated(logId);
    c.CallClosed(now);
  }

  /**
   * A placed call that receives its log id, connects and is hung up with
   * the button is patched as completed with the hang-up time. Its peer
   * call's "close" handler still holds the view of the render that placed
   * it, in which the call was not active.
   */
  method CompletedCallIsPatched(c: CallContext, recipient: Party, callType: string, media: LocalStream,
                                logId: string, details: Party, sel: string, now: string)
    requires c.Valid() && !c.isMinimize && !c.isCallActive && logId != "" && now != ""
    requires details.userId != Some(c.myPeerId)
    modifies c
    ensures c.Valid() && c.PendingLogUpdate() == Some(UpdateLog(logId, "completed", now))
    ensures c.closeView == Some(HangUpView(old(c.callerDetails), false, c.myPeerId, sel))
  {
    ConnectPlacedCall(c, recipient, callType, media, logId, details, sel);
    c.HandleHangUp(c.myPeerId, c.LiveView(sel), now);
  }

  /**
   * A call is placed, its log entry created, the partner's details and
   * stream arrive: it is active, with its log id and the partner as
   * callerDetails.
   */
  method ConnectPlacedCall(c: CallContext, recipient: Party, callType: string, media: LocalStream,
                           logId: string, details: Party, sel: string)
    requires c.Valid() && !c.isMinimize && !c.isCallActive
    modifies c
    ensures c.Valid() && c.isCallActive && c.callId == logId && c.callerDetails == details
    ensures c.myPeerId == old(c.myPeerId)
    ensures c.closeView == Some(HangUpView(old(c.callerDetails), false, c.myPeerId, sel))
  {
    c.InitiateCall(recipient, callType, sel, Some(media));
    c.CallLogCreated(logId);
    c.HandleRecipientDetails(details);
    c.PlacedStream();
  }

  /**
   * If that peer call then closes, its handler records "missed", and the
   * patch due becomes a "missed" one with the same end time.
   */
  method CloseAfterHangUpPatchesMissed(c: CallContext, later: string)
    requires c.Valid() && later != "" && c.callId != "" && c.callStatus == Completed
    requires c.closeView.Some? && !c.closeView.value.isCallActive
    requires c.closeView.value.callerDetails.userId != Some(c.closeView.value.myPeerId)
    modifies c
    ensures c.Valid() && c.callStatus == Missed
    ensures c.PendingLogUpdate() == Some(UpdateLog(old(c.callId), "missed", old(c.callEndAt)))
  {
    c.CallClosed(later);
  }

  /**
   * Only initiateCall resets the call id. A user who answers a call and is
   * then hung up on by the partner has a "completed" patch due for the log
   * entry of the last call they placed themselves.
   */
  method AnsweredCallPatchesOwnLastLog(c: CallContext, from: Option<string>, name: Option<string>,
                                       profile: Option<string>, callType: string, call: IncomingCall,
                                       media: LocalStream, sel: string, now: string)
    requires c.Valid() && c.callId != "" && now != ""
    requires EndedByOther(from, c.ownUserId) && CanAnswer(Some(call))
    modifies c
    ensures c.Valid() && c.PendingLogUpdate() == Some(UpdateLog(old(c.callId), "completed", now))
  {
    c.HandleCallInvitation(from, name, profile, Some(callType));
    c.PeerCall(call);
    c.AcceptCall(callType, sel, Some(media));
    c.AnsweredStream();
    c.HandleCallEnded(from, now);
  }
}
