# Softphone core, modelled in Dafny

This project models the core of an Electron desktop SIP softphone. The renderer
places and answers calls over SIP through a WebSocket user agent. The main process
keeps an `.env` file of settings and runs an auto-updater. A preload bridge joins
the two. The model covers:

- **SIP codes** (`SipCodes`, `SipConstants`): the response-code catalogue with
  its categories and Vietnamese names, and the short call-end messages.
- **Call outcome** (`SipSession`): how a finished call's SIP code is found. It
  is read from the last SIP message by two regular expressions, else taken from
  the end event, else from the cause table. The code then decides the reason
  text and whether the call succeeded.
- **Call controller** (`UseSip.SipPhone`): the user agent's lifecycle with its
  initialisation-loop guard, and the session handlers (progress, early media,
  accepted, ended, failed). Also the duration timer and the call controls.
- **SIP diagnostics** (`SipDebug.SipDebugState`): the bounded event history and
  the burst detector over recent initialisations.
- **Call context** (`CallContext`): cleaning the dialled number, the toggles
  for hold, microphone and speaker and their effects, and the end-of-call
  summary.
- **Auto-updater** (`UpdateManager.Updater`): the status machine driven by the
  update engine's events. It counts consecutive errors and pauses automatic
  checks for a cooldown, which it persists. It also schedules the daily check,
  enables and disables updates, and serves the window's requests.
- **Update panel** (`UpdateContext.UpdatePanel`): the renderer side of the
  updater. It derives the display flags, dismisses and pauses manual checks.
- **Helpers** (`Utils`, `Moment`): version comparison, remaining-time text,
  update URLs, file names from paths, release-notes HTML and clock texts.
- **Settings files** (`EnvFormat`, `MainIndex`, `EnvConfig`): the `.env`
  reader both processes use, the writer of `save-config` and `saveConfig`,
  and the configuration record.
- **Storage** (`WebStorage`, `Storage`, `LegacyStorage`, `JsValues`): the
  browser's `localStorage` and the two storage helper modules on top of it,
  with JavaScript's `null`/`undefined`/`typeof` rules written out.
- **Preload bridge** (`Preload.Api`): window controls, theme, listener lists,
  platform information and the configuration store.
- **Data hooks** (`CdrApi`, `CustomerApi`): the paging and filter queries,
  and how a server reply or error becomes the hook's state.

Code that changes state step by step is modelled as classes with `modifies`
frames. The outside world is modelled in one of two ways:

- The SIP engine, timers, the clock, IPC and the file system become method
  parameters. For example, `now` is the clock, and `engineAccepts` or
  `writeError` say how a foreign call went.
- Outward calls are recorded in an `effects`, `sent`, `requests` or `outbox`
  sequence.

JSON is an abstract `Codec` (a pair of functions) under a `Faithful`
predicate: `parse(stringify(v)) == Some(v)` for every value without
`undefined`.

Reconnection is left to the user agent itself; the only guard the code adds
is `DetectSipLoop`, which refuses a fourth initialisation within ten seconds.

Things the code does that the model keeps, and proves as lemmas:

- `SIP_CODES` files its 1xx entries as success, while `getSIPCodeCategory`
  calls them provisional (`SipCodes.CatalogueCategories`).
- Every key of `mapCodeToReason`'s local table is also in the catalogue, so
  that table is never used (`CallContext.LocalReasonUnreachable`).
- `completeSession` always supplies a reason, so the context's fallback to the
  code's own text never runs (`CallContext.EndInfoMatchesHookOutcome`).
- A restart within the cooldown of any saved error pauses automatic checks,
  even after a successful check reset the count
  (`UpdateManager.RestartAfterRecoveredErrorPauses`).
- The `.env` pattern has no multi-line flag, so a line still carrying the `\r`
  of a CRLF file is ignored (`EnvFormat.MatchAssignment`).
- `LocalStorage.saveItem` of `undefined` stores a text that `getItem` then
  fails to parse (`LegacyStorage.SaveUndefinedThenGet`).
- `initSIP` loads the ringtone and then sets the new agent; that change runs
  the clean-up of the effect keyed on `ua`, which pauses and drops the
  ringtone. An incoming call after a successful initialisation therefore does
  not ring (`UseSip.SipPhone.InitSip`, `UseSip.SilentWithoutRingtone`).
- `addStream` replaces the `ontrack` handler that sets up early media, so
  once a stream is attached a later audio track only plays
  (`UseSip.SipPhone.OnConnectionAudioTrack`).

## Model

| member | source | states |
|---|---|---|
| SipCodes.CatalogueWellFiled | src/renderer/src/lib/sipCodes.ts:15-468 | every catalogue entry carries the code it is filed under, and that code lies in 100..699 |
| SipCodes.CatalogueRow | src/renderer/src/lib/sipCodes.ts:15-468 | the code and category of each catalogue entry |
| SipCodes.CatalogueTexts | src/renderer/src/lib/sipCodes.ts:15-468 | the title, description and Vietnamese name of each catalogue entry |
| SipCodes.SipCodeEntry | src/renderer/src/lib/sipCodes.ts:15-468 | the catalogue entry of a code, if it has one |
| SipCodes.GetSIPCodeInfo | src/renderer/src/lib/sipCodes.ts:475-477 | an entry is returned exactly for the catalogued codes, and it is the entry of that code |
| SipCodes.GetSIPCodeMessage | src/renderer/src/lib/sipCodes.ts:502-509 | a catalogued code gives its Vietnamese name; any other code gives the "unknown code (…)" message |
| SipCodes.UnknownMessageNamesCode | src/renderer/src/lib/sipCodes.ts:502-509 | the message for an unknown code spells out the code, and the number between the parentheses reads back as that code |
| SipCodes.GetSIPCodeCategory | src/renderer/src/lib/sipCodes.ts:516-523 | the category is unknown exactly outside 100..699, and success exactly when `isSIPCodeSuccess` holds |
| SipCodes.CategoryByHundred | src/renderer/src/lib/sipCodes.ts:516-523 | all codes of one hundred block share a category |
| SipCodes.ErrorIffErrorCategory | src/renderer/src/lib/sipCodes.ts:493-495 | below 700, `isSIPCodeError` holds exactly for the client, server and global error categories |
| SipCodes.CatalogueCategories | src/renderer/src/lib/sipCodes.ts:15-468 | from 200 up every catalogue entry's category is the one `getSIPCodeCategory` computes; its 1xx entries are filed as success |
| SipCodes.Category1xx | src/renderer/src/lib/sipCodes.ts:17-53 | every catalogued 1xx entry is filed as success |
| SipCodes.Category2xx | src/renderer/src/lib/sipCodes.ts:54-69 | every catalogued 2xx entry is filed as success |
| SipCodes.Category3xx | src/renderer/src/lib/sipCodes.ts:70-106 | every catalogued 3xx entry is filed as a redirect |
| SipCodes.Category4xx | src/renderer/src/lib/sipCodes.ts:107-381 | every catalogued 4xx entry is filed as a client error |
| SipCodes.Category5xx | src/renderer/src/lib/sipCodes.ts:382-439 | every catalogued 5xx entry is filed as a server error |
| SipCodes.Category6xx | src/renderer/src/lib/sipCodes.ts:440-468 | every catalogued 6xx entry is filed as a global error |
| SipConstants.CallStatesDistinct | src/renderer/src/lib/sipConstants.ts:30-36 | the five call states are pairwise different |
| SipConstants.ShortMessagesCatalogued | src/renderer/src/lib/sipConstants.ts:39-57 | every code with a short message is in the catalogue, its message is non-empty, and 200 is its only 2xx code |
| SipConstants.SipCodeMessage | src/renderer/src/lib/sipConstants.ts:39-57 | the short Vietnamese text of a common code |
| SipSession.DigitRunEnd | src/renderer/src/hooks/useSIPSession.tsx:10-20 | the end of the maximal digit run that starts at a position: only digits before it, no digit at it |
| SipSession.FindStatusLine | src/renderer/src/hooks/useSIPSession.tsx:10-13 | the first position at which the status-line pattern matches, and no match before it |
| SipSession.ScanWordTail | src/renderer/src/hooks/useSIPSession.tsx:15-20 | found exactly when a run of word characters of length at least one after the code ends at a line end |
| SipSession.HasWordTail | src/renderer/src/hooks/useSIPSession.tsx:15-20 | decides exactly the "code, space, words, line end" tail of the fallback pattern |
| SipSession.FindCodeLine | src/renderer/src/hooks/useSIPSession.tsx:15-20 | the first position at which the fallback pattern matches, and no match before it |
| SipSession.ExtractSipCode | src/renderer/src/hooks/useSIPSession.tsx:6-25 | no code exactly when neither pattern matches anywhere in the message |
| SipSession.ExtractLeftmostStatusLine | src/renderer/src/hooks/useSIPSession.tsx:10-13 | the leftmost status line decides the code, whatever follows it |
| SipSession.ExtractLeftmostCodeLine | src/renderer/src/hooks/useSIPSession.tsx:15-20 | without a status line, the leftmost code-then-words line decides the code |
| SipSession.ExtractStatusLineRoundTrip | src/renderer/src/hooks/useSIPSession.tsx:6-25 | a message opening with "SIP/2.0 ", a code and a space yields exactly that code |
| SipSession.ExtractCodeLineRoundTrip | src/renderer/src/hooks/useSIPSession.tsx:6-25 | a message that is a code, a space and a word yields exactly that code |
| SipSession.MessageCode | src/renderer/src/hooks/useSIPSession.tsx:180-187 | tier 1: no code is read when no SIP message was received |
| SipSession.EventCode | src/renderer/src/hooks/useSIPSession.tsx:189-219 | tier 2: a code taken from the end event is never 0, since 0 is falsy |
| SipSession.CauseCode | src/renderer/src/hooks/useSIPSession.tsx:221-249 | the cause table maps causes to final codes in 200..699 |
| SipSession.CauseTierCode | src/renderer/src/hooks/useSIPSession.tsx:221-249 | tier 3 always yields a final code in 200..699, 500 for an unknown cause |
| SipSession.EndCode | src/renderer/src/hooks/useSIPSession.tsx:165-249 | the settled code is never 0: a tier that yields nothing passes on to the next |
| SipSession.EndOutcome | src/renderer/src/hooks/useSIPSession.tsx:165-287 | the outcome has a non-zero code and a non-empty reason, and is successful exactly for 2xx codes |
| SipSession.ReasonForIsSound | src/renderer/src/hooks/useSIPSession.tsx:255-287 | every reason text is non-empty, and exactly the 2xx codes count as successful |
| SipSession.MessageCodeOverridesEvent | src/renderer/src/hooks/useSIPSession.tsx:180-187 | a code found in the last SIP message wins over anything the end event carries |
| SipSession.CancelledCallIs487 | src/renderer/src/hooks/useSIPSession.tsx:221-287 | without a code in the message, a cancelled call ends with 487 and the cancelled text, whatever the event's numbers |
| SipSession.ByeEndsAt200 | src/renderer/src/hooks/useSIPSession.tsx:192-198 | without a code in the message, a BYE ends the call at 200 with the success text, whatever the event's numbers |
| SipSession.FirstTruthyFieldDecides | src/renderer/src/hooks/useSIPSession.tsx:189-219 | for any other cause, the first truthy of `message.status_code`, `message.statusCode`, `statusCode` and `status` decides the code; with none truthy, the cause tier does |
| SipSession.ReasonFor | src/renderer/src/hooks/useSIPSession.tsx:255-287 | the short message for the code when there is one, success exactly for 2xx; otherwise the fallback text by code and range |
| SipSession.LocalHangupIsSuccess | src/renderer/src/hooks/useSIPSession.tsx:221-287 | a local hang-up with no code anywhere ends as 200, successful |
| SipSession.BusyCalleeIs486 | src/renderer/src/hooks/useSIPSession.tsx:221-287 | a busy callee with no code anywhere ends as 486 with the busy text |
| SipSession.UnknownCauseIs500 | src/renderer/src/hooks/useSIPSession.tsx:221-287 | a cause outside the table, with no code anywhere, ends as 500, a server error |
| SipSession.StatusLineDecidesOutcome | src/renderer/src/hooks/useSIPSession.tsx:165-287 | a final response line such as "SIP/2.0 486 Busy Here" received last decides the call's code |
| UseSip.CountTime | src/renderer/src/hooks/useSIP.tsx:72-78 | the duration text consists of digits and colons only |
| UseSip.CountTimeReadsBack | src/renderer/src/hooks/useSIP.tsx:72-78 | the text splits into minutes and seconds whose total is the elapsed whole seconds, seconds below 60 in two digits; below 100 minutes it is exactly "MM:SS" |
| UseSip.UaConfigFor | src/renderer/src/hooks/useSIP.tsx:417-428 | the agent settings carry the fixed no-answer timeout and a `sip:` URI |
| UseSip.ConfigComplete | src/renderer/src/hooks/useSIP.tsx:386 | the account has all four connection fields |
| UseSip.NewSessionEffects | src/renderer/src/hooks/useSIPSession.tsx:70-112 | the previous tracked session is terminated, then an incoming one plays the ringtone when loaded and is announced |
| UseSip.CleanupNotices | src/renderer/src/hooks/useSIP.tsx:743-773 | one stop, pause or termination per resource held, in the clean-up's order |
| UseSip.SilentWithoutRingtone | src/renderer/src/hooks/useSIPSession.tsx:448-453 | with the ringtone dropped, a new session is still announced but nothing rings |
| UseSip.UriNamesAccount | src/renderer/src/hooks/useSIP.tsx:417-428 | the URI split at its first `@` gives back the account's extension and server |
| UseSip.EndNotices | src/renderer/src/hooks/useSIPSession.tsx:297-321 | ending a call stops the ringtone when there is one, then reports cause, code and reason to the context, in that order |
| UseSip.SipPhone.constructor | src/renderer/src/hooks/useSIP.tsx:20-55 | the hook starts with no agent, no session, no timers, empty displays and an empty effect log |
| UseSip.SipPhone.DetectSipLoop | src/renderer/src/hooks/useSIP.tsx:342-357 | the count goes up by one; a loop is reported exactly from the fourth initialisation on within ten seconds of the previous one, never before the third |
| UseSip.SipPhone.InitSip | src/renderer/src/hooks/useSIP.tsx:360-513 | during a loop nothing else happens; a registered agent is kept; an unregistered one is stopped; an incomplete account is refused; a refused configuration leaves the ringtone loaded; a new agent is created, started and registered, after which the clean-up of the effect keyed on `ua` drops the ringtone, the interval and the tracked session, so an incoming call that follows does not ring |
| UseSip.SipPhone.StartAgent | src/renderer/src/hooks/useSIP.tsx:413-507 | the new agent becomes the `ua` state, not yet registered, announced as created, started and registered, and the effect clean-up follows |
| UseSip.SipPhone.CleanUpUaEffect | src/renderer/src/hooks/useSIP.tsx:734-775 | no interval, no ringtone and no tracked session remain; the previous agent is stopped, the ringtone paused and the session terminated when there is one |
| UseSip.SipPhone.OnRegistrationChanged | src/renderer/src/hooks/useSIP.tsx:371-374 | the registration flag follows the engine's report |
| UseSip.SipPhone.MakeCall | src/renderer/src/hooks/useSIP.tsx:516-573 | no agent: nothing; unregistered: a toast only; registered: early media cleared and the call placed, or a toast when the engine refuses |
| UseSip.SipPhone.EndCall | src/renderer/src/hooks/useSIP.tsx:576-585 | the session held in state, if any, is terminated, and nothing else |
| UseSip.SipPhone.AcceptCall | src/renderer/src/hooks/useSIP.tsx:588-612 | only an incoming session is answered; a refusal by the engine raises a toast |
| UseSip.SipPhone.HoldCall | src/renderer/src/hooks/useSIP.tsx:615-623 | the session held in state, if any, is put on hold |
| UseSip.SipPhone.UnholdCall | src/renderer/src/hooks/useSIP.tsx:625-633 | the session held in state, if any, is taken off hold |
| UseSip.SipPhone.OnSipMessage | src/renderer/src/hooks/useSIP.tsx:437-446 | a received message's text becomes the last SIP message; a sent one changes nothing |
| UseSip.SipPhone.OnNewRtcSession | src/renderer/src/hooks/useSIPSession.tsx:70-112 | a repeat of the tracked session changes nothing; otherwise the previous one is terminated, the new one becomes current with its handlers attached, and an incoming one rings and is announced |
| UseSip.SipPhone.OnProgress | src/renderer/src/hooks/useSIPSession.tsx:341-383 | an outgoing session rings; a remote answer with a session description stops the ringtone and sets up early media |
| UseSip.SipPhone.OnAudioTrack | src/renderer/src/hooks/useSIPSession.tsx:390-411 | an audio track on an outgoing session's `peerconnection` connection sets up early media; on any other session nothing changes |
| UseSip.SipPhone.OnConnectionAudioTrack | src/renderer/src/hooks/useSIPSession.tsx:512-537 | an audio track on a session's own connection sets up early media in either direction while its handlers are attached and `addStream` has not replaced its `ontrack` handler; otherwise nothing changes |
| UseSip.SipPhone.OnConnecting | src/renderer/src/hooks/useSIPSession.tsx:385-388 | an outgoing session is ringing; an incoming one changes nothing |
| UseSip.SipPhone.OnPeerConnection | src/renderer/src/hooks/useSIPSession.tsx:469-477 | an incoming session's stream is attached to the remote audio, which replaces its connection's `ontrack` handler |
| UseSip.SipPhone.StartDurationTimer | src/renderer/src/hooks/useSIPSession.tsx:415-438 | a fresh interval is started and recorded, without clearing a previous one |
| UseSip.SipPhone.OnAccepted | src/renderer/src/hooks/useSIPSession.tsx:415-493 | the call is answered and a duration interval starts; an outgoing call attaches its stream unless early media plays and notifies the context; an incoming one stops the ringtone; attaching the stream replaces the connection's `ontrack` handler |
| UseSip.SipPhone.OnTick | src/renderer/src/hooks/useSIPSession.tsx:427-432 | a running interval shows the time since it started; a cleared one changes nothing |
| UseSip.SipPhone.ResetCall | src/renderer/src/hooks/useSIP.tsx:81-88 | the recorded interval is cleared, the duration emptied and early media switched off |
| UseSip.SipPhone.CompleteSession | src/renderer/src/hooks/useSIPSession.tsx:165-322 | the status code is the outcome's code; the call is hung up, reset and forgotten; the ringtone stops; the outcome is reported; the last message is dropped |
| UseSip.SipPhone.Conclude | src/renderer/src/hooks/useSIPSession.tsx:297-321 | the clean-up of `completeSession` for a settled code: hung up, timers and tracking cleared, notices emitted |
| UseSip.SipPhone.OnSessionEnd | src/renderer/src/hooks/useSIPSession.tsx:501-509 | `ended` or `failed` on a listened session completes it and detaches its handlers; on any other session nothing changes |
| SipDebug.AppendBounded | src/renderer/src/lib/sipDebug.ts:32-46 | the event is appended, and the oldest is dropped exactly when the history would exceed its limit |
| SipDebug.RecentInits | src/renderer/src/lib/sipDebug.ts:95-109 | the filter keeps only initialisations within the window, in order |
| SipDebug.RecentInitsAppend | src/renderer/src/lib/sipDebug.ts:95-109 | filtering distributes over appending an event |
| SipDebug.RecentInitsKeeps | src/renderer/src/lib/sipDebug.ts:95-109 | every recent initialisation in the history survives the filter |
| SipDebug.ThreeRecentInitsSuffice | src/renderer/src/lib/sipDebug.ts:95-109 | three initialisations within the window still in the history make at least three recent ones |
| SipDebug.SipDebugState.constructor | src/renderer/src/lib/sipDebug.ts:5-27 | all counters zero and an empty history |
| SipDebug.SipDebugState.LogEvent | src/renderer/src/lib/sipDebug.ts:32-46 | the event is recorded, keeping only the newest events |
| SipDebug.SipDebugState.TrackInit | src/renderer/src/lib/sipDebug.ts:51-57 | one initialisation and one connection more, the time recorded, the event logged |
| SipDebug.SipDebugState.TrackClose | src/renderer/src/lib/sipDebug.ts:62-65 | one connection fewer, never below zero, and the event logged |
| SipDebug.SipDebugState.DebugData | src/renderer/src/lib/sipDebug.ts:70-78 | the counters, history and last initialisation time as they are, and the time since that initialisation |
| SipDebug.SipDebugState.Reset | src/renderer/src/lib/sipDebug.ts:83-89 | everything zeroed; the history holds only the reset event |
| SipDebug.SipDebugState.CountRecentInits | src/renderer/src/lib/sipDebug.ts:95-109 | the loop counts exactly the recent initialisations the filter keeps |
| SipDebug.SipDebugState.DetectLoop | src/renderer/src/lib/sipDebug.ts:95-109 | a loop exactly when there were more than three initialisations and three or more recent ones; only a loop is logged |
| CallContext.CleanDestination | src/renderer/src/contexts/CallContext.tsx:174-190 | only digits and '+' remain, all of them, in order |
| CallContext.CleanDestinationIdempotent | src/renderer/src/contexts/CallContext.tsx:174-190 | cleaning a clean number changes nothing |
| CallContext.CleanDestinationAppend | src/renderer/src/contexts/CallContext.tsx:174-190 | cleaning commutes with concatenation |
| CallContext.DecideDial | src/renderer/src/contexts/CallContext.tsx:174-190 | a warning exactly when fewer than three dialable characters remain; otherwise the cleaned number is dialled |
| CallContext.DialDependsOnlyOnDialChars | src/renderer/src/contexts/CallContext.tsx:174-190 | two inputs with the same dialable characters lead to the same call |
| CallContext.CleanSeparatorsOnly | src/renderer/src/contexts/CallContext.tsx:174-190 | separators alone clean to nothing |
| CallContext.LocalReasonUnreachable | src/renderer/src/contexts/CallContext.tsx:90-116 | every code of the local reason table is also in the catalogue, which answers first |
| CallContext.MapCodeToReason | src/renderer/src/contexts/CallContext.tsx:90-116 | a catalogued code gives its Vietnamese name; any other gives the message naming the code |
| CallContext.LocalReason | src/renderer/src/contexts/CallContext.tsx:96-113 | the context's own text for a code, when its table has one |
| CallContext.EndInfoFor | src/renderer/src/contexts/CallContext.tsx:69-80 | the summary keeps the code, is successful exactly for a success code, and keeps a reason that was given |
| CallContext.EndInfoMatchesHookOutcome | src/renderer/src/contexts/CallContext.tsx:69-80 | for any call end, the summary repeats the hook's outcome exactly |
| CallContext.CallControls.constructor | src/renderer/src/contexts/CallContext.tsx:147-171 | on mount all toggles are off and each effect asks the hook once to unhold, enable the microphone and unmute, which are the requests the flags call for |
| CallContext.CallControls.InitSip | src/renderer/src/contexts/CallContext.tsx:119-128 | a toast when the account has no SIP settings, otherwise the hook initialises with them |
| CallContext.CallControls.MakeCall | src/renderer/src/contexts/CallContext.tsx:174-190 | an empty or too short number raises a warning; otherwise the cleaned number is dialled |
| CallContext.CallControls.OnCallTerminated | src/renderer/src/contexts/CallContext.tsx:69-80 | the end summary is the one `EndInfoFor` gives |
| CallContext.CallControls.HandleHold | src/renderer/src/contexts/CallContext.tsx:193-197 | the flag flips, and its effect (lines 147-153) holds or unholds accordingly |
| CallContext.CallControls.HandleDisableMic | src/renderer/src/contexts/CallContext.tsx:199-203 | the flag flips, and its effect (lines 156-162) disables or enables the microphone |
| CallContext.CallControls.HandleMuteAudio | src/renderer/src/contexts/CallContext.tsx:205-209 | the flag flips, and its effect (lines 165-171) mutes or unmutes the speaker |
| CallContext.CallControls.OnCallStateChange | src/renderer/src/contexts/CallContext.tsx:131-141 | on hang-up every toggle goes off and each one that was on is undone at the hook; other states change nothing |
| CallContext.ToggleRequests | src/renderer/src/contexts/CallContext.tsx:147-171 | one request per toggle, exactly one of each pair, as each flag says |
| CallContext.CallControls.OnHookSessionChange | src/renderer/src/contexts/CallContext.tsx:147-171 | a new hook session gives new hold, microphone and audio callbacks, so all three effects ask again for the current flags |
| CallContext.CallControls.OnRemoteAudioChange | src/renderer/src/contexts/CallContext.tsx:165-171 | a new remote audio element re-runs only the audio effect, which asks again for the current mute flag |
| UpdateManager.CheckError | src/main/update-manager.ts:431-462 | an error status exactly when the engine call threw, with its message |
| UpdateManager.RestoredCooldown | src/main/update-manager.ts:144-173 | a cooldown is restored exactly when a saved error time is set and under `ERROR_COOLDOWN` old, due when that cooldown ends |
| UpdateManager.RestartAfterRecoveredErrorPauses | src/main/update-manager.ts:144-188 | a restart within the cooldown of a saved error pauses checks even when the saved count is 0 |
| UpdateManager.Updater.constructor | src/main/update-manager.ts:39-60 | the initial status, no timers, no errors, updates enabled, and whatever error state an earlier run saved |
| UpdateManager.Updater.SendStatus | src/main/update-manager.ts:396-400 | the status is sent exactly when a window is open |
| UpdateManager.Updater.SaveErrorState | src/main/update-manager.ts:178-188 | the file holds the last error time and the error count |
| UpdateManager.Updater.ScheduleUpdateCheck | src/main/update-manager.ts:193-222 | the pending automatic check is cancelled, then re-armed unless paused or switched off |
| UpdateManager.Updater.RestoreErrorState | src/main/update-manager.ts:144-173 | a cooldown begun less than `ERROR_COOLDOWN` ago resumes with a timer for its remainder; otherwise nothing changes |
| UpdateManager.Updater.Setup | src/main/update-manager.ts:65-108 | development only switches updates off; an unusable feed switches them off but installs handlers; otherwise handlers, restored error state and a first check, with updates off after a failed feed lookup; the error state is untouched where nothing is restored |
| UpdateManager.Updater.CheckForUpdates | src/main/update-manager.ts:431-462 | nothing in development, nor for an automatic check while disabled or paused; otherwise the engine is asked and a throw sets the error status |
| UpdateManager.Updater.FireAutoCheck | src/main/update-manager.ts:214-221 | a pending automatic check runs and the daily interval follows; a cancelled one never fires |
| UpdateManager.Updater.OnChecking | src/main/update-manager.ts:229-237 | the status becomes checking with no error, and is sent |
| UpdateManager.Updater.OnUpdateAvailable | src/main/update-manager.ts:240-258 | the release is recorded and the window prompted; the error count resets and any cooldown ends |
| UpdateManager.Updater.OnUpdateNotAvailable | src/main/update-manager.ts:261-274 | the status becomes not-available; the error count resets and any cooldown ends |
| UpdateManager.Updater.OnDownloadProgress | src/main/update-manager.ts:277-285 | the status becomes downloading with the reported progress |
| UpdateManager.Updater.OnUpdateDownloaded | src/main/update-manager.ts:288-299 | the status becomes downloaded, is sent, and the install dialog is shown |
| UpdateManager.Updater.OnError | src/main/update-manager.ts:302-340 | one more consecutive error at `now`; from the third on, automatic checks pause for `ERROR_COOLDOWN` and the pending one is cancelled |
| UpdateManager.Updater.FireCooldownTimer | src/main/update-manager.ts:313-331 | the cooldown ends, the count resets and is saved; the error handler's timer also reschedules checks |
| UpdateManager.Updater.DownloadUpdate | src/main/update-manager.ts:467-475 | a download starts only from a found release |
| UpdateManager.Updater.InstallUpdate | src/main/update-manager.ts:480-488 | an install starts only from a downloaded release |
| UpdateManager.Updater.OnInstallDialogAnswer | src/main/update-manager.ts:420-424 | only the first button installs |
| UpdateManager.Updater.IpcCheckForUpdates | src/main/update-manager.ts:348-350 | the window's request is a user-initiated check, which starts even during a pause |
| UpdateManager.Updater.UpdateStatusReply | src/main/update-manager.ts:363-365 | the reply carries the current status, release, error and progress |
| UpdateManager.Updater.ToggleAutoUpdate | src/main/update-manager.ts:368-378 | updates are switched off exactly when disabled; enabling reschedules, disabling cancels |
| UpdateManager.Updater.DismissUpdateError | src/main/update-manager.ts:381-390 | back to not-checked with no error; release information and progress stay |
| UpdateContext.Flags | src/renderer/src/contexts/UpdateContext.tsx:26-30 | each flag holds exactly for its status, the release flags only when not dismissed |
| UpdateContext.FlagsExclusive | src/renderer/src/contexts/UpdateContext.tsx:26-30 | at most one flag is raised at a time |
| UpdateContext.DismissalHidesOnlyReleases | src/renderer/src/contexts/UpdateContext.tsx:26-30 | dismissal hides a found or downloaded release and no other flag |
| UpdateContext.StatusToast | src/renderer/src/contexts/UpdateContext.tsx:40-54 | a toast exactly for the found, downloaded, error and not-available statuses, an error toast exactly for an error |
| UpdateContext.UpdatePanel.constructor | src/renderer/src/contexts/UpdateContext.tsx:33-89 | the initial state, not dismissed, not paused, and the status requested when the bridge is there |
| UpdateContext.UpdatePanel.CurrentFlags | src/renderer/src/contexts/UpdateContext.tsx:26-30 | the flags of the current state and dismissal |
| UpdateContext.UpdatePanel.OnStatusReply | src/renderer/src/contexts/UpdateContext.tsx:74-81 | a non-null reply replaces the state |
| UpdateContext.UpdatePanel.OnUpdateStatus | src/renderer/src/contexts/UpdateContext.tsx:40-54 | the state is replaced and the status's toast, if any, is raised |
| UpdateContext.UpdatePanel.OnUpdatePrompt | src/renderer/src/contexts/UpdateContext.tsx:63-66 | a prompt brings a dismissed release back |
| UpdateContext.UpdatePanel.CheckForUpdates | src/renderer/src/contexts/UpdateContext.tsx:92-100 | refused with a toast during the pause, otherwise the check is requested |
| UpdateContext.UpdatePanel.DownloadUpdate | src/renderer/src/contexts/UpdateContext.tsx:103-105 | the download is requested |
| UpdateContext.UpdatePanel.InstallUpdate | src/renderer/src/contexts/UpdateContext.tsx:108-110 | the install is requested |
| UpdateContext.UpdatePanel.DismissUpdate | src/renderer/src/contexts/UpdateContext.tsx:113-133 | always dismisses; from an error it also clears the error locally and pauses manual checks with a timer |
| UpdateContext.UpdatePanel.FirePauseTimer | src/renderer/src/contexts/UpdateContext.tsx:126-131 | a pause timer ends the pause, even one a later dismissal started |
| Utils.RemainingOf | src/renderer/src/lib/utils.ts:42-56 | the breakdown is the largest non-zero unit and the one below it, and adds back up to the whole units of the input |
| Utils.FormatTimeRemaining | src/renderer/src/lib/utils.ts:42-56 | under a second the fixed text; otherwise a text starting with a digit |
| Utils.RenderRemainingReadsBack | src/renderer/src/lib/utils.ts:49-55 | the text reads back, word by word, as the numbers and units of the breakdown |
| Utils.RenderRemaining | src/renderer/src/lib/utils.ts:49-55 | each number of the breakdown followed by its unit, separated by spaces |
| Utils.RemainingWords | src/renderer/src/lib/utils.ts:49-55 | the words joined by spaces are the text |
| Utils.ToNumber | src/renderer/src/lib/utils.ts:78-79 | blank text is 0 and every number read is non-negative |
| Utils.ToNumbers | src/renderer/src/lib/utils.ts:78-79 | one number per piece, each read alone |
| Utils.ParseVersion | src/renderer/src/lib/utils.ts:78-79 | a version always has at least one component |
| Utils.CompareFrom | src/renderer/src/lib/utils.ts:81-89 | the result is -1, 0 or 1 |
| Utils.VersionOrder | src/renderer/src/lib/utils.ts:77-90 | the result is -1, 0 or 1 |
| Utils.CompareParts | src/renderer/src/lib/utils.ts:81-89 | the loop computes the first difference of the component lists, a missing one counting as 0 |
| Utils.CompareVersions | src/renderer/src/lib/utils.ts:77-90 | the result is the version order of the two texts |
| Utils.CompareFromReflexive | src/renderer/src/lib/utils.ts:81-89 | every version equals itself |
| Utils.CompareFromAntisymmetric | src/renderer/src/lib/utils.ts:81-89 | swapping the versions negates the result |
| Utils.VersionOrderProperties | src/renderer/src/lib/utils.ts:77-90 | the order is reflexive and antisymmetric |
| Utils.CompareFromComponentwise | src/renderer/src/lib/utils.ts:81-89 | lists that agree component by component, padding with 0, compare alike |
| Utils.ParseVersionZeroSuffix | src/renderer/src/lib/utils.ts:78-79 | appending ".0" appends a zero component |
| Utils.TrailingZeroIgnored | src/renderer/src/lib/utils.ts:77-90 | "1.2" and "1.2.0" compare alike with every version |
| Utils.MajorUpdateIsNewer | src/renderer/src/lib/utils.ts:98-103 | a major update is always a newer version |
| Utils.GetUpdateFileUrl | src/renderer/src/lib/utils.ts:112-116 | the base with exactly one slash added if it lacks one, then platform and file name |
| Utils.UpdateFileUrlSlashInsensitive | src/renderer/src/lib/utils.ts:112-116 | a base with and without its trailing slash give the same URL |
| Utils.PathPieces | src/renderer/src/lib/utils.ts:125 | the last piece of the split is the run after the last separator |
| Utils.ExtractFileNameStep | src/renderer/src/lib/utils.ts:123-127 | a trailing separator does not change the name; otherwise the name is the last run of non-separators |
| Utils.ExtractFileNameIsLastName | src/renderer/src/lib/utils.ts:123-127 | the name is the last run of non-separators once trailing separators are dropped |
| Utils.ExtractFileNameEmptyIffOnlySeparators | src/renderer/src/lib/utils.ts:123-127 | the name is empty exactly when the path holds only separators |
| Utils.ExtractFileName | src/renderer/src/lib/utils.ts:123-127 | the last non-empty piece of the path, or "" |
| Utils.ReleaseNotesHtml | src/renderer/src/lib/utils.ts:135-171 | no notes give the ready paragraph; text gives the header and one piece of markup per line; a list gives the header and one item per entry |
| Utils.FormatReleaseNotes | src/renderer/src/lib/utils.ts:135-171 | the appending loop builds exactly the markup `ReleaseNotesHtml` describes |
| Utils.BulletLineIsListItem | src/renderer/src/lib/utils.ts:148-150 | any line whose trimmed text starts with "- ", indented or not, becomes a list item holding the rest of that text |
| Utils.HeadingLineIsH4 | src/renderer/src/lib/utils.ts:152-154 | a line whose trimmed text starts with "### " becomes a heading holding the rest of that text |
| Utils.BlankLineIsEmpty | src/renderer/src/lib/utils.ts:156-158 | a line of blanks contributes nothing |
| Utils.OtherLineIsParagraph | src/renderer/src/lib/utils.ts:160 | any other non-blank line becomes a paragraph of the line as written, untrimmed |
| Utils.NoteLine | src/renderer/src/lib/utils.ts:147-161 | the markup of one line of text notes, chosen on the trimmed line |
| Utils.LineMarkup | src/renderer/src/lib/utils.ts:148-160 | bullet, heading, blank and paragraph rules, in that order |
| Utils.EntryItemsAppend | src/renderer/src/lib/utils.ts:163-169 | each list entry becomes one item, in order |
| Moment.Field | src/renderer/src/lib/moment.ts:26-37 | a field below 100 is its digits padded to two |
| Moment.ClockFields | src/renderer/src/lib/moment.ts:26-37 | there are three fields: hours, minutes and seconds |
| Moment.ClockFieldsOfNat | src/renderer/src/lib/moment.ts:26-37 | for a non-negative input the fields are whole hours, minutes below 60 and seconds below 60 |
| Moment.TimeSplitsIntoFields | src/renderer/src/lib/moment.ts:26-37 | the text splits at its colons into the three fields |
| Moment.TimeReadsBack | src/renderer/src/lib/moment.ts:26-37 | the text reads back as three digit fields, minutes and seconds in two digits below 60, that add up to the input |
| Moment.Time2SameFields | src/renderer/src/lib/moment.ts:38-49 | `time2` shows exactly the fields `time` shows, each followed by its label |
| Moment.Time | src/renderer/src/lib/moment.ts:26-37 | the three clock fields joined by colons |
| Moment.Time2 | src/renderer/src/lib/moment.ts:38-49 | the three clock fields, each followed by its Vietnamese unit |
| Moment.BackupTime2 | src/renderer/src/lib/moment.ts:12-15 | the first ten characters of the text, or all of a shorter one |
| Moment.PickTime2 | src/renderer/src/lib/moment.ts:19-22 | characters 11 to 15 of the text, empty for a short one |
| Moment.IsoTimestampParts | src/renderer/src/lib/moment.ts:12-22 | on an ISO-style timestamp the two cut out the date and the hour and minute |
| EnvFormat.MatchAssignment | src/main/index.ts:31-32 | a match splits the line at its first '=' with a non-empty key; no match exactly when there is no such '=' or the rest holds a line terminator |
| EnvFormat.Unquote | src/main/index.ts:35-38 | one pair of matching double or single quotes is removed; any other value is kept |
| EnvFormat.ParseLine | src/main/index.ts:27-40 | a line sets a variable exactly when it matches, with the key trimmed |
| EnvFormat.Assignment | src/main/index.ts:27-40 | a line kept by the main process's filter assigns what it parses to |
| EnvFormat.ConfigAssignment | src/renderer/src/shared/config.ts:18-27 | a line kept by the settings module's filter assigns what it parses to |
| EnvFormat.ApplyLine | src/main/index.ts:27-40 | a line's assignment, if any, sets its key |
| EnvFormat.ApplyLines | src/main/index.ts:27-40 | the lines applied in order, a later assignment winning |
| EnvFormat.FiltersAgree | src/renderer/src/shared/config.ts:18 | the settings module's line filter and the main process's give the same assignment for every line |
| EnvFormat.ApplyLinesAppend | src/main/index.ts:27-40 | reading two blocks of lines is reading the first then the second |
| EnvFormat.EntryLines | src/main/index.ts:197-199 | one `key='value'` line per setting, in order |
| EnvFormat.Quoted | src/main/index.ts:198 | the value between single quotes |
| EnvFormat.EntryLine | src/main/index.ts:198 | the key, "=", and the quoted value |
| EnvFormat.SavedFile | src/main/index.ts:193-201 | the two comment lines and a blank, then one line per setting |
| EnvFormat.SavedSettings | src/renderer/src/shared/config.ts:105-112 | one line per setting, no header |
| EnvFormat.QuotedIsTrimmed | src/main/index.ts:197-199 | a quoted value has no surrounding blanks |
| EnvFormat.UnquoteQuoted | src/main/index.ts:35-38 | unquoting a quoted value gives it back |
| EnvFormat.EntryLineParses | src/main/index.ts:27-40 | a saved line with safe key and value parses as that key and value |
| EnvFormat.EntryLineKept | src/main/index.ts:27-30 | a saved line passes the comment and blank filter |
| EnvFormat.EntryLineReadsBack | src/main/index.ts:27-40 | a saved line reads back as its key and value |
| EnvFormat.ApplyEntryLine | src/main/index.ts:40 | applying a saved line sets exactly its variable |
| EnvFormat.EntryLinesApply | src/main/index.ts:27-40 | applying the saved lines sets the settings in order |
| EnvFormat.HeaderAssignsNothing | src/main/index.ts:194 | the header lines of the saved file assign nothing |
| EnvFormat.SavedFileRoundTrip | src/main/index.ts:188-207 | reading the file `save-config` writes gives back exactly the saved settings, when keys and values are safe |
| EnvFormat.SavedSettingsRoundTrip | src/renderer/src/shared/config.ts:102-118 | reading the file `saveConfig` writes gives back exactly the saved settings, when keys and values are safe |
| MainIndex.MainProcess.constructor | src/main/index.ts:11 | no window, not maximised, nothing sent |
| MainIndex.MainProcess.CreateWindow | src/main/index.ts:50-124 | a window is open |
| MainIndex.MainProcess.LoadEnv | src/main/index.ts:14-48 | every assignment line of the file, in order, sets its variable; without a file nothing changes |
| MainIndex.MainProcess.SaveConfig | src/main/index.ts:188-207 | the file is replaced by the header and the settings' lines, unless writing fails, which is reported |
| MainIndex.MainProcess.ToggleMaximize | src/main/index.ts:141-154 | with a window, the flag flips and the new value is reported; without one nothing changes |
| MainIndex.MainProcess.OnMaximizeEvent | src/main/index.ts:157-169 | the flag takes the event's value, which is reported to an open window |
| MainIndex.MainProcess.SetTheme | src/main/index.ts:172-179 | every window hears the theme, in order |
| MainIndex.ThemeMessages | src/main/index.ts:172-179 | one message per window, in order |
| MainIndex.SaveThenLoad | src/main/index.ts:14-48 | saving settings and reading the file back at the next start gives the settings back |
| MainIndex.ToggleTwice | src/main/index.ts:141-154 | toggling twice restores the flag and reports both changes |
| EnvConfig.LoadEnvFile | src/renderer/src/shared/config.ts:10-42 | the variables the file assigns, a later line winning; none without a file |
| EnvConfig.CollectVars | src/renderer/src/shared/config.ts:18-32 | the loop over the lines fills exactly what reading the lines gives |
| EnvConfig.ConfigLineApplies | src/renderer/src/shared/config.ts:18-30 | a line read by the settings module changes the variables as the main process's reading does |
| EnvConfig.CombinedEnv | src/renderer/src/shared/config.ts:72 | every default, overridden by the file's variables |
| EnvConfig.InitialConfig | src/renderer/src/shared/config.ts:75-89 | seven entries with distinct keys: the current environment's addresses, version, name and environment |
| EnvConfig.Pick | src/renderer/src/shared/config.ts:76-79 | the development or the production address |
| EnvConfig.OtherVariablesIgnored | src/renderer/src/shared/config.ts:72-89 | a file variable under any name but the eight development and production addresses leaves the record unchanged |
| EnvConfig.KeyIndex | src/renderer/src/shared/config.ts:97-99 | the position of the key, or -1 exactly when it is missing |
| EnvConfig.Config.constructor | src/renderer/src/shared/config.ts:75-89 | the record is built from the file's variables, or from the defaults without a file |
| EnvConfig.Config.Get | src/renderer/src/shared/config.ts:75-89 | none exactly when the key is missing, else the value stored with it |
| EnvConfig.Config.OverrideConfig | src/renderer/src/shared/config.ts:97-99 | the key takes the value, in place or at the end; every other key keeps its value |
| EnvConfig.Config.SaveConfig | src/renderer/src/shared/config.ts:102-118 | the file holds one line per setting, and the result says whether writing succeeded |
| EnvConfig.OtherKeyUnchanged | src/renderer/src/shared/config.ts:97-99 | setting one key leaves every other key's value as it was |
| EnvConfig.KeysOf | src/renderer/src/shared/config.ts:102-118 | exactly the keys of the entries |
| EnvConfig.EntriesMapKeys | src/renderer/src/shared/config.ts:102-118 | the entries set exactly their own keys |
| EnvConfig.EntriesMapValues | src/renderer/src/shared/config.ts:102-118 | with distinct keys each key holds its entry's value |
| EnvConfig.SavedSettingsReload | src/renderer/src/shared/config.ts:10-42 | `loadEnvFile` reads the file `saveConfig` writes back as exactly the saved settings, when keys and values are safe; of those, only the development and production addresses reach the record built at the next start |
| JsValues.StoredText | src/renderer/src/lib/storage.ts:10-24 | the stored text parses back as the value when it is JSON, fails for `undefined`, and is never empty |
| JsValues.ToTextParses | src/preload/index.ts:107-113 | a primitive other than a string reads back from its own text |
| JsValues.ToText | src/preload/index.ts:111 | `String(v)` of a primitive |
| JsValues.FieldIndex | src/renderer/src/hooks/useCustomerApi.tsx:63-74 | the first position of the field, or -1 exactly when it is missing |
| JsValues.SetField | src/renderer/src/hooks/useCustomerApi.tsx:63-74 | an existing field is replaced in place; a new one goes at the end |
| JsValues.Spread | src/renderer/src/hooks/useCustomerApi.tsx:65-68 | the source's fields assigned onto the target in order |
| WebStorage.Store.constructor | src/renderer/src/lib/storage.ts:10-24 | the store holds the given items |
| WebStorage.Store.GetItem | src/renderer/src/lib/storage.ts:31-44 | the text under the key exactly when it is there |
| WebStorage.Store.SetItem | src/renderer/src/lib/storage.ts:10-24 | the key takes the text; nothing else changes |
| WebStorage.Store.RemoveItem | src/renderer/src/lib/storage.ts:50-58 | the key is gone; nothing else changes |
| WebStorage.Store.Clear | src/renderer/src/lib/storage.ts:81-89 | the store is empty |
| Storage.SavedItems | src/renderer/src/lib/storage.ts:10-24 | the store after saving the record's entries in order |
| Storage.SaveEntry | src/renderer/src/lib/storage.ts:10-24 | one entry stored as JSON, unless its value is `null` or `undefined` |
| Storage.SavedItemsFrame | src/renderer/src/lib/storage.ts:10-24 | a key whose entries are all `null` or `undefined` keeps its state |
| Storage.SavedItemsLast | src/renderer/src/lib/storage.ts:10-24 | the last entry of a key with a value decides what is stored under it |
| Storage.SaveItem | src/renderer/src/lib/storage.ts:10-24 | each entry with a value is stored as JSON, `null` and `undefined` skipped |
| Storage.GetItem | src/renderer/src/lib/storage.ts:31-44 | a missing or empty entry reads as `null`, otherwise the parsed value, or `null` when parsing fails |
| Storage.SaveThenGet | src/renderer/src/lib/storage.ts:10-44 | saving a JSON value other than `null` and reading it gives it back |
| Storage.RemoveItem | src/renderer/src/lib/storage.ts:50-58 | the key is removed |
| Storage.Kept | src/renderer/src/lib/storage.ts:64-76 | exactly the listed keys that the store has, with their texts |
| Storage.ClearLocalStorageExceptKeys | src/renderer/src/lib/storage.ts:64-76 | every key not listed is removed, whatever order the store lists them in |
| Storage.ClearLocalStorage | src/renderer/src/lib/storage.ts:81-89 | the store is empty |
| Storage.SecureKey | src/renderer/src/lib/storage.ts:95-112 | the prefix followed by the key |
| Storage.SecureKeyInjective | src/renderer/src/lib/storage.ts:95-112 | different keys have different secure keys |
| Storage.SecureSetItem | src/renderer/src/lib/storage.ts:95-112 | the JSON text under the prefixed key, `undefined` stored as its name |
| Storage.SecureGetItem | src/renderer/src/lib/storage.ts:95-112 | `null` for a missing or empty entry, otherwise the parsed value, none when parsing throws |
| Storage.SecureRemoveItem | src/renderer/src/lib/storage.ts:95-112 | the prefixed key is removed |
| Storage.SecureRoundTrip | src/renderer/src/lib/storage.ts:95-112 | a JSON value set and got gives itself back, and keys outside the secure area are untouched |
| Storage.SecureUndefinedThrows | src/renderer/src/lib/storage.ts:95-112 | a secure item stored as `undefined` cannot be read back |
| LegacyStorage.SavedItems | src/renderer/src/store/LocalStorage.ts:2-13 | every key of the record ends up in the store |
| LegacyStorage.SaveItem | src/renderer/src/store/LocalStorage.ts:2-13 | every entry is stored, `null` and `undefined` included |
| LegacyStorage.GetItem | src/renderer/src/store/LocalStorage.ts:15-24 | a missing key reads as `null`; otherwise the parsed text, none when parsing throws |
| LegacyStorage.SaveThenGet | src/renderer/src/store/LocalStorage.ts:2-24 | saving a JSON value, `null` included, and reading it gives it back |
| LegacyStorage.SaveUndefinedThenGet | src/renderer/src/store/LocalStorage.ts:2-24 | saving `undefined` stores a text that reading then fails on |
| LegacyStorage.EmptyTextThrows | src/renderer/src/store/LocalStorage.ts:15-24 | an empty stored text throws here, while the newer helper reads it as `null` |
| LegacyStorage.RemoveItem | src/renderer/src/store/LocalStorage.ts:26-29 | the key is removed |
| LegacyStorage.ClearLocalStorageExceptKeys | src/renderer/src/store/LocalStorage.ts:31-37 | exactly the listed keys remain |
| LegacyStorage.ClearLocalStorage | src/renderer/src/store/LocalStorage.ts:38-44 | the store is empty |
| Preload.IndexOf | src/preload/index.ts:34-39 | the first position of the listener, or -1 exactly when it is absent |
| Preload.RemoveFirst | src/preload/index.ts:34-39 | the first occurrence is removed and nothing else; an absent listener changes nothing |
| Preload.AddThenRemove | src/preload/index.ts:29-39 | adding a new listener and removing it restores the list |
| Preload.AddThenRemoveMultiset | src/preload/index.ts:29-39 | adding and removing always restores the listeners as a collection |
| Preload.MaximizeCalls | src/preload/index.ts:138-142 | one call per listener, in order |
| Preload.ThemeCalls | src/preload/index.ts:145-149 | one call per listener, in order |
| Preload.Api.constructor | src/preload/index.ts:59 | the theme is the stored one, or "system"; no listeners, no platform yet |
| Preload.Api.Close | src/preload/index.ts:20 | the close request is sent |
| Preload.Api.Minimize | src/preload/index.ts:21 | the minimise request is sent |
| Preload.Api.Maximize | src/preload/index.ts:22 | the maximise request is sent |
| Preload.Api.Logout | src/preload/index.ts:127-129 | the logout request is sent |
| Preload.Api.SaveConfig | src/preload/index.ts:91-93 | the settings are sent to be written |
| Preload.Api.OnMaximizeChange | src/preload/index.ts:29-31 | the listener goes at the end |
| Preload.Api.RemoveMaximizeChangeListener | src/preload/index.ts:34-39 | its first registration goes |
| Preload.Api.OnThemeChange | src/preload/index.ts:75-77 | the listener goes at the end |
| Preload.Api.RemoveThemeChangeListener | src/preload/index.ts:80-85 | its first registration goes |
| Preload.Api.NotifyTheme | src/preload/index.ts:66-68 | every theme listener is called once, in order |
| Preload.Api.SetTheme | src/preload/index.ts:62-69 | the theme is stored, sent, made current and heard by every listener |
| Preload.Api.OnThemeChanged | src/preload/index.ts:145-149 | the theme becomes current and every listener hears it |
| Preload.Api.OnMaximizeChangeMessage | src/preload/index.ts:138-142 | the flag takes the value and every listener hears it once, in order |
| Preload.Api.OnPlatformInfo | src/preload/index.ts:133-135 | the platform information is kept |
| Preload.Api.GetName | src/preload/index.ts:53 | the reported platform, or "unknown" before one is reported or when it is empty |
| Preload.PlatformTests | src/preload/index.ts:45-53 | no platform test holds and the name is "unknown" before a report or for an empty one; at most one holds after, and it agrees with the name |
| Preload.Api.IsMac | src/preload/index.ts:48 | the reported platform is "darwin" |
| Preload.Api.IsWindows | src/preload/index.ts:49 | the reported platform is "win32" |
| Preload.Api.IsLinux | src/preload/index.ts:50 | the reported platform is "linux" |
| Preload.ConfigGet | src/preload/index.ts:96-104 | the default for a missing key, the parsed value of JSON text, the text itself otherwise |
| Preload.ConfigSet | src/preload/index.ts:107-113 | objects and `null` are stored as JSON, anything else as its own text |
| Preload.ConfigRemove | src/preload/index.ts:116-118 | the key is removed |
| Preload.ConfigClear | src/preload/index.ts:121-123 | the store is empty |
| Preload.ConfigRoundTrip | src/preload/index.ts:96-113 | a JSON value that is not a string comes back as itself; a string comes back as itself only when it is not JSON text |
| CdrApi.NextPage | src/renderer/src/hooks/useCDRApi.tsx:123-128 | the next page, the rest of the query unchanged |
| CdrApi.PrevPage | src/renderer/src/hooks/useCDRApi.tsx:133-138 | the previous page, never below the first, the rest unchanged |
| CdrApi.ResetFilters | src/renderer/src/hooks/useCDRApi.tsx:143-153 | the first page with every text filter cleared; limit, tag and dates stay |
| CdrApi.PrevUndoesNext | src/renderer/src/hooks/useCDRApi.tsx:123-138 | going forward and back returns to the same query |
| CdrApi.ResetIdempotent | src/renderer/src/hooks/useCDRApi.tsx:123-153 | resetting twice is resetting once, and paging before a reset makes no difference |
| CdrApi.ErrorToast | src/renderer/src/hooks/useCDRApi.tsx:104-116 | the session message on 403, else the server's message, else the fallback |
| CdrApi.RequestError | src/renderer/src/hooks/useCDRApi.tsx:80-116 | a failed request is its own error; a reply without a body raises none; a body whose total is not 0 but has no summary list raises the no-response error; any other body raises nothing |
| CdrApi.Received | src/renderer/src/hooks/useCDRApi.tsx:84-100 | a reply replaces the records, count and total calls (the first summary's, or 0), a zero total empties them, no body keeps them |
| CdrApi.OrZero | src/renderer/src/hooks/useCDRApi.tsx:90 | `x \|\| 0` for a number that may be missing |
| CdrApi.CdrHook.constructor | src/renderer/src/hooks/useCDRApi.tsx:41-47 | no records, no error, loading |
| CdrApi.CdrHook.Fail | src/renderer/src/hooks/useCDRApi.tsx:104-116 | the error is kept, loading stops, a toast explains it, and the session is expired exactly on 403 |
| CdrApi.CdrHook.FetchCdrs | src/renderer/src/hooks/useCDRApi.tsx:52-118 | without a token nothing is requested; otherwise the reply or the error decides the state; loading always stops |
| CustomerApi.SearchByPhone | src/renderer/src/hooks/useCustomerApi.tsx:95-101 | the phone on the first page; limit and keyword stay |
| CustomerApi.SearchByKeyword | src/renderer/src/hooks/useCustomerApi.tsx:106-112 | the keyword on the first page; limit and phone stay |
| CustomerApi.NextPage | src/renderer/src/hooks/useCustomerApi.tsx:117-122 | the next page, the rest unchanged |
| CustomerApi.PrevPage | src/renderer/src/hooks/useCustomerApi.tsx:127-132 | the previous page, never below the first, the rest unchanged |
| CustomerApi.SearchRestartsPaging | src/renderer/src/hooks/useCustomerApi.tsx:95-132 | a search starts on the first page wherever paging had got to |
| CustomerApi.PrevUndoesNext | src/renderer/src/hooks/useCustomerApi.tsx:117-132 | going forward and back returns to the same query |
| CustomerApi.FieldValue | src/renderer/src/hooks/useCustomerApi.tsx:63-74 | none exactly when the object has no field of that name |
| CustomerApi.SetFieldValue | src/renderer/src/hooks/useCustomerApi.tsx:63-74 | a set field holds its value, every other keeps its own, and names stay distinct |
| CustomerApi.SpreadValue | src/renderer/src/hooks/useCustomerApi.tsx:63-74 | after a spread a name has the source's value when the source has it, the target's otherwise |
| CustomerApi.SpreadKeepsNames | src/renderer/src/hooks/useCustomerApi.tsx:63-74 | spreading keeps the target's names in their places |
| CustomerApi.MarkUnchecked | src/renderer/src/hooks/useCustomerApi.tsx:63-74 | every item becomes an object |
| CustomerApi.MarkUncheckedFields | src/renderer/src/hooks/useCustomerApi.tsx:63-74 | a customer keeps its fields, `checked` comes first and is false unless the customer has its own |
| CustomerApi.Customers | src/renderer/src/hooks/useCustomerApi.tsx:63-74 | one marked customer per item, in order |
| CustomerApi.CustomerHook.constructor | src/renderer/src/hooks/useCustomerApi.tsx:27-30 | no customers, no error, a zero count, loading |
| CustomerApi.CustomerHook.FetchCustomers | src/renderer/src/hooks/useCustomerApi.tsx:35-90 | without a token nothing is requested; a reply with a list shows it and its count, one without empties the list; an error is reported, a 403 as an expired session |

Rows for functions and predicates without a contract of their own (tables
such as `SipCodes.CatalogueRow`, and one-line transcriptions such as
`Preload.Api.IsMac`) say what they compute; the lemmas listed beside them state
their properties. Four more one-line tests have no row, because the rows of the
members built on them state what follows: `SipCodes.IsSIPCodeSuccess` and
`SipCodes.IsSIPCodeError` (`sipCodes.ts:484-495`), `CallContext.IsCallActive`
(`CallContext.tsx:144`) and `Utils.IsMajorUpdate` (`utils.ts:98-103`).

## Left out

- The SIP engine and WebRTC are not modelled: user agent construction, the
  WebSocket transport, SDP, peer connections, media streams, audio elements,
  `getUserMedia`, and the microphone and speaker track toggles
  (`useSIP.tsx:91-339` and `636-717`), and all of `hooks/useSIPAudio.tsx`.
  The engine appears only as events and an `engineAccepts` or
  `registered` input.
- Registration events are only logged by the code (`useSIP.tsx:491-497`), and
  `MAX_RECONNECT_ATTEMPTS` is never used; neither carries any behaviour.
- Real timers and the clock are not modelled: `setInterval`, `setTimeout` and
  `Date.now()` are tick and expiry methods with an explicit `now`.
- Network, IPC and file I/O are not modelled: axios requests and their query
  strings, `ipcMain`/`ipcRenderer` transport, `fs` reads and writes, the update
  engine, dialogs, and the Electron window and app lifecycle. Each becomes
  an input saying how the call went, or an entry in an effect log.
- Floating point is not modelled: `formatBytes`, `formatPercentage`,
  `estimateTimeRemaining`, download percentages, and audio volume.
- Library wrappers are not modelled: the moment-timezone functions
  (`formatTime`, `formatTimeUTC`, `pathTime`, `backupTime`, `pickTime`,
  `pickHours`, `roundDownMin`, `roundUpMin`, `roundDownHour`,
  `roundHourMin`), `formatDate` and `cn`.
- UI components, `ThemeContext`, `UIContext`, `ContextProvider.tsx` (an older
  copy of the call logic), `scripts/create-env.js` (the same line rule as
  `main/index.ts`), build configuration and type-only files are not part of
  this model.
- JSON is not implemented. It is an abstract codec assumed to round-trip every
  value without `undefined`, so key order, `__proto__` keys and number
  formatting inside JSON text are not modelled.
- Utils.FormatTimeRemaining: takes a whole number of milliseconds, so
  fractional inputs (which `estimateTimeRemaining` produces) are not covered.
- Utils.ToNumber: models `Number` only for decimal digits surrounded by
  whitespace; any other text is NaN. Signs, decimals, exponents and hex
  prefixes are not modelled.
- UseSip.CountTime: takes the elapsed milliseconds rather than two `Date`
  objects.
- Moment.BackupTime2: takes the timestamp's text, since `String(date)` depends
  on the host's locale and time zone.
- Moment.PickTime2: takes the timestamp's text, for the same reason.
- Moment.ClockFields: takes a whole number of seconds; fractional seconds,
  which `time` prints with a fraction, are not modelled.
- UseSip.SipPhone.CompleteSession: the `catch` branch (code 500 with the
  processing-error text) is not modelled, because no step of the modelled
  code/reason chain can throw.
- UseSip.SipPhone.CompleteSession: the React `session` state is left as it
  was, as in the code, which clears only `sessionRef`.
- UseSip.SipPhone.OnAccepted: a second `accepted` event starts a new interval
  without clearing the first, as in the code; the first keeps its entry in
  `timers`.
- UseSip.SipPhone.CleanUpUaEffect: pausing and detaching the remote audio
  element and closing the `AudioContext` are not modelled, as the model holds
  neither; the clean-up at unmount is the same method, and when React runs it
  after a new agent is set is taken to be before any further event.
- UpdateManager.Updater.Setup: the Linux feed-URL reset in
  `configureForPlatform` (update-manager.ts:113-129) and logging are not
  modelled, while its platform rule for `autoDownload` is; a second call
  installs the handlers again, which the model records only as
  `listening`.
- UpdateManager.Updater.OnDownloadProgress: the progress is an abstract value;
  its percentage and speed are floating point.
- Preload.Api.OnThemeChanged: listeners are opaque identifiers, so a listener
  that adds or removes listeners while being notified is not modelled.
- Preload.Api.OnMaximizeChangeMessage: the same restriction on listeners.
- Storage.GetItem: the `typeof window` guard is not modelled.
- Storage.SaveItem: every write is taken to succeed; a write that throws (a
  full store, say) would end the loop, leaving the later entries unsaved.
- MainIndex.MainProcess.CreateWindow: the `platform-info` message the window
  is sent once it is ready to show (main/index.ts:95-104) is not modelled.
- EnvConfig.Config.SaveConfig: the write is asynchronous in the code; the
  model takes its outcome as a boolean.
- EnvConfig.InitialConfig: configuration values are strings; non-string
  values set through `overrideConfig` are not modelled.
- CdrApi.CdrHook.FetchCdrs: the records are opaque; a body whose total is not
  0 but has no summary list goes to the error path, as in the code.
- CustomerApi.CustomerHook.FetchCustomers: a body without a list empties the
  customers but keeps `totalCount`, as in the code.
- CustomerApi.MarkUnchecked: items are taken to be objects, or values with no
  own enumerable fields (numbers, booleans, `null`), which leave only
  `checked`; a string or array item, whose spread adds one field per index, is
  not modelled.
- CustomerApi.MarkUncheckedFields: item keys are taken never to be
  integer-like; JavaScript lists such keys ("0", "5") before every other key,
  so for those items `checked` would not come first.
- JsValues.SetField: keys are taken never to be integer-like or `__proto__`;
  a new integer-like key would be listed before the string keys, not at the
  end, and assigning `__proto__` would set the prototype, not a field.
- EnvConfig.Config.OverrideConfig: the same restriction on keys; an
  integer-like key would be written first by `saveConfig`, and a `__proto__`
  key would be dropped rather than recorded.
- MainIndex.MainProcess.SaveConfig: values are taken as strings, while the
  handler renders any value it receives with a template string; the settings
  `Preload.Api.SaveConfig` sends are JavaScript values, so the model does not
  connect the two.
- UseSip.SipPhone.OnConnectionAudioTrack: whether a session already has a
  connection when it is adopted is up to the engine; the event is taken to
  arrive only when the handler was attached.
- UseSip.SipPhone.OnAudioTrack: the connection of an outgoing
  `peerconnection` event is taken to be a different object from the one
  `addStream` reassigns; if the engine hands over the same object, a later
  `addStream` silences this handler too.
