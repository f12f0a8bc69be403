# Calling, chat-list and password-reset logic of a video-calling web app

This project models the client-side state logic of a browser app for
one-to-one audio/video calls and chat, and proves properties of that
model in Dafny. It covers three source files.

- **The calling context** (`CallContext.js`). The class `CallSession.CallContext` has one field per
  piece of React state or ref that the call handlers touch, and one method
  per handler: socket events, peer events, accept, reject, hang up,
  initiate, the media toggles, the call timer and the call-log effect.
  - Socket messages, call-log requests and `getUserMedia` requests are
    appended to outbox fields.
  - A local stream is a value recording the enabled flag of its first video
    track and its first audio track.
  - The pure decisions are functions in `CallModel`: who a message goes to,
    which media are requested, and when a log patch is due.
  - The timer's text is `Duration.FormatDuration`, with its shape, length,
    round-trip and injectivity proved.
- **The chat context** (`ChatContext.js`), module `Chat`, covers four
  updates: marking a conversation as seen, deleting a message, receiving a
  message, and the "blocked by me" flag.
  - `markMessagesAsSeen`'s `map` with its accumulator is a loop,
    `MarkSeenList`. It is proved against two reference functions:
    `MarkedSeen` (the new list) and `LastMatchCount` (the amount subtracted
    from the total).
- **The password-reset page** (`forgot.js`), module `ResetPassword`, covers
  the six one-digit OTP boxes (an `array` of length 6), their focus moves,
  the email check and the OTP comparison. The regex
  `^[^\s@]+@[^\s@]+\.[^\s@]+$` is given regex semantics (`EmailMatches`).
  It is proved equal to a plain description of the accepted addresses
  (`ValidEmailShape`).

React closures read the state of the render that created them, and the
model keeps to that in three places:

- The 30-second no-answer timeout tests the `isCallActive` of the moment
  the call was placed (`PendingTimeout.activeAtStart`).
- `initiateCall` asks for media with the audio/video flags from before its
  own resets.
- A peer call's "close" handler runs the `handleHangUp` of the render that
  placed or answered the call. It reads that render's `callerDetails`,
  `isCallActive`, `myPeerId` and `selectedChatUserId` (`HangUpView`, stored
  as `closeView`). The hang-up button runs the current render's
  (`LiveView`).

Three consequences follow and are proved over several handlers:

- A placed call whose peer call closes before it connects is recorded as
  "missed" but never patched in the call log. The end time stays "" from
  `initiateCall`'s reset (`MissedCallIsNotPatched`).
- A connected call hung up with the button is patched "completed"
  (`CompletedCallIsPatched`). If its peer call then closes, the captured
  view still sees an inactive call. The status becomes "missed", and the
  patch due is a "missed" one with the earlier end time
  (`CloseAfterHangUpPatchesMissed`). A completed call is thus re-patched
  as "missed" whenever its peer call closes after the hang-up.
- Only `initiateCall` resets the call id. A user who answers a call and is
  then hung up on has a "completed" patch due for the log entry of the last
  call they placed themselves (`AnsweredCallPatchesOwnLastLog`).

## Model

| member | source | states |
|---|---|---|
| Common.OrElse | frontend/src/contexts/CallContext.js:185 | `a \|\| b` for an optional string: `a`'s value when truthy, else `b` |
| Duration.DecimalString | frontend/src/contexts/CallContext.js:354 | `String(n)` is a non-empty digit string whose decimal value is `n`; one digit below 10, at least two from 10 |
| Duration.PadStart2 | frontend/src/contexts/CallContext.js:354 | `padStart(2, "0")` gives length max(len, 2) and keeps the decimal value of a digit string |
| Duration.LeadingZeros | frontend/src/contexts/CallContext.js:354 | zeros prefixed to a digit string keep it a digit string with the same value |
| Duration.FormatDuration | frontend/src/contexts/CallContext.js:351-355 | formatDuration's definition: `String(floor(s/60))` and `String(s % 60)`, each padded to two digits, joined by ":"; its properties are the four lemmas below |
| Duration.FormatDurationShape | frontend/src/contexts/CallContext.js:351-355 | formatDuration(s) is at least two digits denoting floor(s/60), a colon, and two digits denoting s mod 60 < 60; the minutes start with '0' only when they are exactly two digits |
| Duration.FormatDurationLength | frontend/src/contexts/CallContext.js:351-355 | below 6000 seconds the text has length 5 |
| Duration.ParseFormatDuration | frontend/src/contexts/CallContext.js:351-355 | minutes*60 + seconds read back from the text is s |
| Duration.FormatDurationInjective | frontend/src/contexts/CallContext.js:351-355 | different durations are displayed differently |
| Duration.ResetDisplayIsZero | frontend/src/contexts/CallContext.js:347-348 | the reset text "00:00" is the formatted zero duration |
| CallModel.EndedByOther | frontend/src/contexts/CallContext.js:101 | the "call-ended" guard: `from` is truthy and is not the own user id |
| CallModel.CanAnswer | frontend/src/contexts/CallContext.js:138 | acceptCall's guard: a stored incoming call with an `answer` function |
| CallModel.StatusText | frontend/src/contexts/CallContext.js:188-191 | the status text is empty exactly for the unset status |
| CallModel.AcceptConstraints | frontend/src/contexts/CallContext.js:148-151 | acceptCall asks for video iff the call type is "video", and always for audio |
| CallModel.InitiateConstraints | frontend/src/contexts/CallContext.js:253-256 | initiateCall asks for video iff a video call with video enabled, and for audio iff audio enabled |
| CallModel.HangUpRecipient | frontend/src/contexts/CallContext.js:183-185 | "call-ended" has no recipient exactly when id is the other party's id; otherwise the other party's id when truthy, else the selected chat user |
| CallModel.StatusRecipient | frontend/src/contexts/CallContext.js:312 | a media status goes to the selected chat user when id is the other party's id, else to the other party when truthy, else to this peer |
| CallModel.RecipientsAgree | frontend/src/contexts/CallContext.js:312 | when the other party's id is set and differs from id, hang-up and status messages go to the same peer |
| CallModel.LogUpdate | frontend/src/contexts/CallContext.js:374-391 | a patch is sent iff status, call id and end time are all non-empty, and it carries exactly those three |
| CallModel.LogUpdateUnderInvariant | frontend/src/contexts/CallContext.js:389-391 | under the status/end-time invariant a patch is due iff a call id and an end time are known |
| CallSession.CallContext.constructor | frontend/src/contexts/CallContext.js:19-47 | the initial state: idle, no streams, all media flags true, "00:00", no status, empty outboxes |
| CallSession.CallContext.RemoveStreaming | frontend/src/contexts/CallContext.js:213-224 | afterwards no streams and no timeout, and all four media flags true; when that already held nothing changes (idempotent) |
| CallSession.CallContext.StartCallDuration | frontend/src/contexts/CallContext.js:332-340 | the interval runs |
| CallSession.CallContext.TimerTick | frontend/src/contexts/CallContext.js:334-339 | while the interval runs, the duration ref and the display both become formatDuration(elapsed); otherwise neither changes |
| CallSession.CallContext.StopCallTimer | frontend/src/contexts/CallContext.js:342-349 | afterwards no interval and both texts "00:00"; when that already held nothing changes (idempotent) |
| CallSession.CallContext.PeerOpen | frontend/src/contexts/CallContext.js:54 | the peer id becomes the one assigned |
| CallSession.CallContext.PeerCall | frontend/src/contexts/CallContext.js:57-59 | the incoming call is stored |
| CallSession.CallContext.HandleCallInvitation | frontend/src/contexts/CallContext.js:61-67 | ringtone on, not-answered and calling cleared, caller details set from the invitation |
| CallSession.CallContext.HandleRecipientDetails | frontend/src/contexts/CallContext.js:69-71 | caller details replaced by the recipient's |
| CallSession.CallContext.HandleCallRejected | frontend/src/contexts/CallContext.js:73-80 | not-answered set, window restored, ringing off, status "missed", streams released; the log invariant is kept |
| CallSession.CallContext.HandleCallNotAnswered | frontend/src/contexts/CallContext.js:82-89 | incoming call dropped, ringtone and ringing off, status "missed", streams released; the log invariant is kept |
| CallSession.CallContext.HandleCallEnded | frontend/src/contexts/CallContext.js:91-106 | always idle with streams released; "completed" with the end time only when `from` is truthy and not the own user id, otherwise status and end time unchanged |
| CallSession.CallContext.HandleCallAccepted | frontend/src/contexts/CallContext.js:113-116 | ringing off |
| CallSession.CallContext.HandleVideoStatus | frontend/src/contexts/CallContext.js:117 | the partner's video flag becomes the received status |
| CallSession.CallContext.HandleAudioStatus | frontend/src/contexts/CallContext.js:118 | the partner's audio flag becomes the received status |
| CallSession.CallContext.AcceptCall | frontend/src/contexts/CallContext.js:134-180 | timeout always cleared; without an answerable call nothing else changes; otherwise ringtone off, call type set, media asked for only when no stream exists, and once a stream exists the call is cleared, "call-accepted" sent to the caller and the close handler registered with the current view |
| CallSession.CallContext.AnsweredStream | frontend/src/contexts/CallContext.js:159-165 | the answered call becomes active and calling, not-answered cleared, timer started |
| CallSession.CallContext.RecordHangUp | frontend/src/contexts/CallContext.js:183-193 | status unchanged when id is the other party's id; else "completed" at `now` if the viewed call is active, "missed" otherwise; returns the hang-up recipient |
| CallSession.CallContext.HandleHangUp | frontend/src/contexts/CallContext.js:182-202 | the status rule of RecordHangUp, then "call-ended" from id to the hang-up recipient, and the state idle, streams released and timer reset |
| CallSession.CallContext.TearDown | frontend/src/contexts/CallContext.js:195-201 | idle, streams released and timer reset |
| CallSession.CallContext.CallClosed | frontend/src/contexts/CallContext.js:297-301 | the registered close handler hangs up as its captured peer id with its captured view; with none registered nothing changes |
| CallSession.CallContext.RejectCall | frontend/src/contexts/CallContext.js:204-211 | incoming call, ringtone, ringing and timeout cleared; "call-rejected" sent to the caller's id |
| CallSession.CallContext.InitiateCall | frontend/src/contexts/CallContext.js:226-256 | recipient stored; while minimized only the window is restored and nothing else changes; otherwise the state NewCallStarted describes |
| CallSession.CallContext.StartNewCall | frontend/src/contexts/CallContext.js:236-288 | status, call id and end time reset to empty, flags reset, media asked for with the flags from before the reset; when granted "call-user" and a log entry are sent, the timeout armed with the current isCallActive and the close handler registered |
| CallSession.CallContext.ResetCall | frontend/src/contexts/CallContext.js:236-251 | the reset: no status, id or end time, media flags true, not minimized, no stream |
| CallSession.CallContext.PlaceCall | frontend/src/contexts/CallContext.js:258-288 | stream kept, "call-user" sent, calling and ringing, log entry requested, timeout and close handler capture the current render |
| CallSession.CallContext.PlacedStream | frontend/src/contexts/CallContext.js:290-295 | the placed call becomes active, timeout cleared, timer started |
| CallSession.CallContext.TimeoutFired | frontend/src/contexts/CallContext.js:281-288 | only an armed timeout whose captured isCallActive was false sends "call-not-answered" to its recipient, sets not-answered, stops ringing and releases the streams |
| CallSession.CallContext.ToggleVideo | frontend/src/contexts/CallContext.js:310-319 | without a stream or video track nothing changes or is sent; otherwise the track flips, the local flag equals the new value, and that value goes to StatusRecipient |
| CallSession.CallContext.ToggleAudio | frontend/src/contexts/CallContext.js:321-330 | the same for the audio track |
| CallSession.CallContext.CallLogCreated | frontend/src/contexts/CallContext.js:368 | the call id becomes the created entry's id |
| CallSession.CallContext.SyncCallLog | frontend/src/contexts/CallContext.js:389-391 | the pending patch, if any, is sent and nothing otherwise |
| CallSession.ToggleVideoTwice | frontend/src/contexts/CallContext.js:310-319 | toggling twice restores the track and sends the two opposite values to one peer |
| CallSession.ToggleAudioTwice | frontend/src/contexts/CallContext.js:321-330 | toggling audio twice restores the track and sends the two opposite values to one peer |
| CallSession.MissedCallIsNotPatched | frontend/src/contexts/CallContext.js:389-391 | a placed call closed before connecting ends "missed" with no patch due |
| CallSession.ConnectPlacedCall | frontend/src/contexts/CallContext.js:290-295 | placing, logging, receiving details and the stream leaves an active call with its log id, and a close handler that saw it inactive |
| CallSession.CompletedCallIsPatched | frontend/src/contexts/CallContext.js:186-190 | a connected call hung up with the button has a "completed" patch due with the hang-up time |
| CallSession.CloseAfterHangUpPatchesMissed | frontend/src/contexts/CallContext.js:297-301 | a close after that makes the due patch "missed" with the same end time |
| CallSession.AnsweredCallPatchesOwnLastLog | frontend/src/contexts/CallContext.js:91-106 | an answered call that the partner ends has a "completed" patch due for the call id left by the user's last placed call, since only line 246 resets it |
| Chat.Matches | frontend/src/contexts/ChatContext.js:90 | an entry matches when its partner's peer id is the selected chat user |
| Chat.LastMatchCount | frontend/src/contexts/ChatContext.js:88-91 | the accumulator's final value: each match overwrites it; a non-zero value is the count of some matching entry |
| Chat.Seen | frontend/src/contexts/ChatContext.js:92-96 | the seen entry has count 0, the same partner, and the partner's fields spread over its own |
| Chat.MarkedSeen | frontend/src/contexts/ChatContext.js:89-99 | same length and order; non-matching entries unchanged; matching entries replaced by their seen form |
| Chat.MarkSeenList | frontend/src/contexts/ChatContext.js:87-103 | the `map` with its accumulator returns MarkedSeen and LastMatchCount |
| Chat.LastMatchCountNoMatch | frontend/src/contexts/ChatContext.js:88-91 | with no matching entry, 0 is subtracted |
| Chat.LastMatchCountIsLast | frontend/src/contexts/ChatContext.js:88-91 | otherwise the count of the last matching entry is subtracted (assigned, not summed) |
| Chat.LastMatchCountAllSeen | frontend/src/contexts/ChatContext.js:88-91 | when every matching entry has count 0, 0 is subtracted |
| Chat.MarkSeenKeepsTotal | frontend/src/contexts/ChatContext.js:100-102 | with at most one entry for the partner, the subtraction equals what the list's counts lose |
| Chat.DuplicateEntriesUndercount | frontend/src/contexts/ChatContext.js:88-102 | with two entries for the partner both are zeroed but only the last count is subtracted |
| Chat.MarkSeenIdempotent | frontend/src/contexts/ChatContext.js:89-99 | marking again changes nothing and subtracts nothing |
| Chat.WithoutMessage | frontend/src/contexts/ChatContext.js:135 | the filter keeps exactly the messages whose `_id` differs |
| Chat.WithoutMessageAppend | frontend/src/contexts/ChatContext.js:135 | the filter distributes over concatenation, so the kept messages stay in order |
| Chat.WithoutAbsentMessage | frontend/src/contexts/ChatContext.js:135 | with no message carrying the id the list is unchanged |
| Chat.WithoutMessageCount | frontend/src/contexts/ChatContext.js:135 | each message with the id loses all copies; every other message keeps its multiplicity |
| Chat.IsCurrentChat | frontend/src/contexts/ChatContext.js:322-324 | the message is from the selected user to me, or from me to the selected user |
| Chat.IsCurrentChatSymmetric | frontend/src/contexts/ChatContext.js:322-324 | swapping sender and receiver does not change isCurrentChat |
| Chat.Notifies | frontend/src/contexts/ChatContext.js:334 | a notification fires iff the message is addressed to the current user and its sender is not the selected chat user, never for the open chat |
| Chat.ReceivedMessage | frontend/src/contexts/ChatContext.js:327-330 | the appended message carries the event's sender, receiver, text, file URL, product URL and timestamp, and no `_id` |
| Chat.ReceivedMessageNotDeleted | frontend/src/contexts/ChatContext.js:327-330 | a message appended from the socket is kept by every delete |
| Chat.FetchBlockedUsers | frontend/src/contexts/ChatContext.js:166-182 | [] for a falsy id, a failed request or a null body; else the returned list |
| Chat.ChatContext.constructor | frontend/src/contexts/ChatContext.js:32-49 | empty lists, no selection, total 0, no user, flags false |
| Chat.ChatContext.SelectChat | frontend/src/contexts/ChatContext.js:36 | the selected chat user is set |
| Chat.ChatContext.SetCurrentUser | frontend/src/contexts/ChatContext.js:38 | the current user is set |
| Chat.ChatContext.MarkMessagesAsSeen | frontend/src/contexts/ChatContext.js:80-108 | after an ok reply the list is MarkedSeen and the total drops by LastMatchCount; a failed request changes nothing |
| Chat.ChatContext.DeleteMessage | frontend/src/contexts/ChatContext.js:126-142 | no change unless both ids are truthy and the reply is ok; then the messages are WithoutMessage |
| Chat.ChatContext.HandleMessageReceived | frontend/src/contexts/ChatContext.js:313-342 | the message is appended and isMessageSent set iff isCurrentChat; the notification is queued iff Notifies |
| Chat.ChatContext.BlockUser | frontend/src/contexts/ChatContext.js:184-207 | no change without a selected user or when blocking fails; else "blocked" sent and isBlockedMe iff the selected user is in the fetched list |
| ResetPassword.EmailMatches | frontend/src/auth/forgot.js:24 | `emailRegex.test(s)`: a run of non-space, non-'@' characters, '@', another run, '.', a third run, covering the whole string |
| ResetPassword.EmailMatchesHasShape | frontend/src/auth/forgot.js:24 | a regex match has no whitespace, its '@' is the only one, and a '.' follows with text on both sides |
| ResetPassword.ShapeHasEmailMatch | frontend/src/auth/forgot.js:24 | such an address splits into the three runs of the regex |
| ResetPassword.EmailRegexCharacterization | frontend/src/auth/forgot.js:24 | the regex accepts an address iff it has no whitespace and exactly one '@' with text before it, and after the '@' some '.' with text on both sides |
| ResetPassword.EmailError | frontend/src/auth/forgot.js:66-71 | "Email is required" for "", "Invalid email address" for a non-empty address of the wrong shape, no error iff the shape is right |
| ResetPassword.DigitsOnly | frontend/src/auth/forgot.js:44 | the result holds only digits, a character occurs in it iff it is a digit of the input, and it is no longer |
| ResetPassword.DigitsOnlyCounts | frontend/src/auth/forgot.js:44 | each digit occurs as often as in the input, every other character never |
| ResetPassword.DigitsOnlyAppend | frontend/src/auth/forgot.js:44 | stripping a concatenation is concatenating the stripped parts, so the digits keep their order |
| ResetPassword.DigitsOnlyKeepsDigits | frontend/src/auth/forgot.js:44 | a digit string is left as it is |
| ResetPassword.ChangedSlots | frontend/src/auth/forgot.js:43-48 | same number of boxes, only box `index` may change; it takes the stripped value when that has at most one character, else nothing changes |
| ResetPassword.ChangedSlotsOk | frontend/src/auth/forgot.js:43-48 | every box keeps holding nothing or one digit |
| ResetPassword.FocusAfterChange | frontend/src/auth/forgot.js:49-51 | focus moves to index+1 iff a digit was entered and a next box exists |
| ResetPassword.FocusAfterKey | frontend/src/auth/forgot.js:55-60 | focus moves to index-1 iff Backspace in an empty box with a previous box |
| ResetPassword.Join | frontend/src/auth/forgot.js:91 | `otp.join("")`: the boxes' texts concatenated in order; its property is JoinFilled |
| ResetPassword.JoinFilled | frontend/src/auth/forgot.js:91 | one-digit boxes join to one digit per box, in order |
| ResetPassword.OtpCheck | frontend/src/auth/forgot.js:91-96 | incomplete iff some box is empty; a match iff none is and the joined boxes equal the generated OTP |
| ResetPassword.MatchedOtpIsBoxes | frontend/src/auth/forgot.js:91-96 | a match means the generated OTP has one digit per box, equal to the boxes in order |
| ResetPassword.OtpError | frontend/src/auth/forgot.js:92-107 | "Incorrect OTP !" when incomplete, "OTP does not match" on a mismatch, no error on a match |
| ResetPassword.ForgotPage.constructor | frontend/src/auth/forgot.js:27-34 | six empty boxes, no errors, no OTP, popup closed, no match |
| ResetPassword.ForgotPage.SetEmail | frontend/src/auth/forgot.js:150 | the email field takes the input |
| ResetPassword.ForgotPage.HandleChange | frontend/src/auth/forgot.js:43-53 | the boxes become ChangedSlots and focus follows FocusAfterChange; boxes stay valid |
| ResetPassword.ForgotPage.HandleKeyDown | frontend/src/auth/forgot.js:54-62 | focus follows FocusAfterKey; nothing else changes |
| ResetPassword.ForgotPage.HandleSubmit | frontend/src/auth/forgot.js:63-88 | an email error is stored and nothing is requested; otherwise errors cleared, OTP requested, and a reply with an OTP stores it and opens the popup, else its message is shown |
| ResetPassword.ForgotPage.HandleOtpSubmit | frontend/src/auth/forgot.js:89-108 | on an incomplete or mismatched OTP only its error is stored; on a match otpMatch is set and a reset timer armed with the current email |
| ResetPassword.ForgotPage.ResetTimerFired | frontend/src/auth/forgot.js:99-104 | the earliest armed timer fires: popup closed, six empty boxes again, match cleared, navigation to the update-password page with the email that timer captured |
| ResetPassword.NavigatesWithMatchedEmail | frontend/src/auth/forgot.js:97-104 | the navigation carries the email of the render in which the OTP matched, even after the field is edited |

## Left out

- The socket connection, peerjs (`Peer`, `call`, `answer`, `destroy`) and `navigator.mediaDevices.getUserMedia` are foreign libraries and browser APIs. Emits are outbox entries. A granted or refused media request is a method parameter. The remote stream is a flag.
- Every REST call is a remote backend call, and only its outcome is a parameter. The calls are: chat lists, chat messages, mark-seen, delete, block, blocked users, call logs and the OTP request. The bodies sent are not modelled beyond the call-log requests and the requested email.
- `setTimeout`, `setInterval`, `Date.now` and `toISOString` belong to the clock. A timer's callback is a method of its own, an elapsed time is a whole number of seconds, and a timestamp is an opaque non-empty string.
- The async interleaving of `await` is not modelled. Each handler runs to completion with the reply it awaits given up front.
- Toasts, alerts and console output are user-interface side effects and are left out. The exceptions are the new-message notification and the OTP reply's message, which `HandleMessageReceived` and `HandleSubmit` queue.
- `fetchCallHistory` is a remote refresh with no effect on the modelled state.
- The same holds for the `fetchChatsLists` and `fetchChatMessages` refreshes that `handleMessageReceived` starts. Their later replies replace `chatList` and `messages` wholesale.
- `useRingTone`, routing, the `isAuthenticated` redirect and rendering are React plumbing.
- `AcceptCallModal.js` and `index.js` are user-interface markup and application bootstrap.
- `sendMessage`, `deleteChat`, `sendCallbackRequest`, the active-user list and the other chat handlers fall outside the chat-list and message-list updates modelled here.
- Track objects are not modelled. Stopping a stream's tracks is dropping the stream, and a stream is a value, so aliasing of one stream between refs is not modelled.
- Duration.FormatDuration: modelled on non-negative seconds only. A clock that goes backwards would give negative input, which is not modelled.
- CallSession.CallContext.PlaceCall: a new call discards the earlier call's armed timeout and close handler (`timeout` and `closeView` hold one each), which the source leaves in place. `timeOut.current = setTimeout(...)` at CallContext.js:281 does not cancel an earlier timer, and each peer call keeps its own "close" handler (CallContext.js:167-170, 297-301). So an earlier call's timeout or close event firing after a new call was placed is not modelled.
- CallSession.CallContext.StartCallDuration: it does not model that starting a second interval leaves the first one running.
- The stale callers of `startCallDuration`, `stopCallTimer` and `removeStreaming` are not a concern, because those functions touch only refs and setters.
- The socket handlers registered by the effect read only `user.userId`, which the model keeps constant (`ownUserId`).
- Chat.FetchBlockedUsers: a reply body without a `blockedUsers` field is not modelled. The real `includes` call would then throw inside `blockUser`'s catch.
- The model follows a production build. `index.js:23` mounts the app under `React.StrictMode`, so a development build runs the side-effecting `setChatList` updater of `markMessagesAsSeen` (ChatContext.js:87-104) twice, and the count is subtracted twice.
- The "call-user" signal (`CallUser` in `CallModel.Signal`) keeps only `from`, `to` and `callType` of the message (CallContext.js:262-270). `name`, `profile`, `rName` and `rProfile` are display data for the callee and are dropped.
- The JSX markup of `forgot.js` (lines 132-222) is rendering. The one-character `maxLength` of the boxes is not relied on, since `HandleChange` accepts any input text.
