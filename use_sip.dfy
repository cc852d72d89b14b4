/**
 * The SIP hook: the user agent's life cycle (initialisation with its loop
 * guard, registration, placing and controlling calls) and the per-session
 * event handlers that drive the call state, the duration timer, the
 * ringtone and the notifications to the call context.
 *
 * The SIP engine, timers and media are outside the model: the engine's
 * callbacks are methods taking what the engine reports (and the current
 * time in milliseconds), and what the hook asks of the engine or the UI is
 * appended to `effects`.
 */
module UseSip {
  import opened Wrappers
  import opened Strings
  import opened SipSession
  import SipConstants

  // ---------------------------------------------------------------------
  // Call duration display
  // ---------------------------------------------------------------------

  /**
   * `countTime`: the elapsed time as minutes and seconds, each padded to
   * two digits; the whole seconds are floored and the seconds field uses
   * JavaScript's truncating remainder.
   */
  function CountTime(elapsedMs: int): (r: string)
    ensures elapsedMs >= 0 ==> AllDigitsOrColon(r)
  {
    var secs := elapsedMs / 1000;
    var minutes := secs / 60;
    var seconds := JsRem(secs, 60);
    PadStart2(IntToString(minutes)) + ":" + PadStart2(IntToString(seconds))
  }

  predicate AllDigitsOrColon(s: string)
  {
    forall i :: 0 <= i < |s| ==> IsDigit(s[i]) || s[i] == ':'
  }

  lemma NatToStringShort(n: nat)
    requires n < 100
    ensures |NatToString(n)| <= 2
  {
    if n >= 10 {
      assert NatToString(n) == NatToString(n / 10) + [DigitChar(n % 10)];
    }
  }

  /**
   * The displayed duration reads back as minutes and seconds whose total is
   * the elapsed whole seconds, with the seconds below 60 in two digits; below
   * 100 minutes the display is exactly "MM:SS".
   */
  lemma CountTimeReadsBack(ms: nat)
    ensures var parts := Split(CountTime(ms), ':');
            |parts| == 2 && AllDigits(parts[0]) && AllDigits(parts[1]) && |parts[1]| == 2
            && DigitsValue(parts[1]) < 60
            && 60 * DigitsValue(parts[0]) + DigitsValue(parts[1]) == ms / 1000
    ensures ms < 6000000 ==> |CountTime(ms)| == 5
  {
    var e := ms / 1000;
    var m: nat := e / 60;
    var sec: nat := e % 60;
    var mm := PadStart2(NatToString(m));
    var ss := PadStart2(NatToString(sec));
    assert CountTime(ms) == mm + [':'] + ss;
    PadStart2Value(m);
    PadStart2Value(sec);
    NatToStringShort(sec);
    assert ':' !in mm && ':' !in ss by {
      assert forall i :: 0 <= i < |mm| ==> IsDigit(mm[i]);
      assert forall i :: 0 <= i < |ss| ==> IsDigit(ss[i]);
    }
    SplitAfterPiece(mm, ':', ss);
    assert Split(ss, ':') == [ss];
    if ms < 6000000 {
      NatToStringShort(m);
    }
  }

  // ---------------------------------------------------------------------
  // User agent configuration
  // ---------------------------------------------------------------------

  /** The account settings the hook is initialised with. */
  datatype SipConfig = SipConfig(extension: string, password: string, sipServer: string,
                                 wsHost: string, displayName: string)

  /** What the hook hands the engine when it creates a user agent. */
  datatype UaConfig = UaConfig(wsHost: string, uri: string, password: string, displayName: string,
                               noAnswerTimeout: int, registerExpires: int)

  const REGISTER_EXPIRES: int := 600

  /** All four connection fields are present (non-empty). */
  predicate ConfigComplete(c: SipConfig)
  {
    c.wsHost != "" && c.extension != "" && c.sipServer != "" && c.password != ""
  }

  /** The user agent settings derived from an account. */
  function UaConfigFor(c: SipConfig): (u: UaConfig)
    ensures u.noAnswerTimeout == SipConstants.NO_ANSWER_TIMEOUT
    ensures StartsWith(u.uri, "sip:")
  {
    UaConfig(c.wsHost, "sip:" + c.extension + "@" + c.sipServer, c.password, c.displayName,
             45, REGISTER_EXPIRES)
  }

  /** The SIP URI names the account: split at its first `@`, it gives back the extension and the server. */
  lemma UriNamesAccount(c: SipConfig)
    requires '@' !in c.extension
    ensures var rest := UaConfigFor(c).uri[4..];
            var i := IndexOf(rest, '@');
            i == |c.extension| && rest[..i] == c.extension && rest[i + 1..] == c.sipServer
  {
    var rest := UaConfigFor(c).uri[4..];
    assert rest == c.extension + "@" + c.sipServer;
    assert rest[|c.extension|] == '@';
    assert rest[..|c.extension|] == c.extension;
  }

  // ---------------------------------------------------------------------
  // The hook's state and its event handlers
  // ---------------------------------------------------------------------

  datatype Ua = Ua(id: nat, config: UaConfig)

  datatype Direction = Outgoing | Incoming

  /** What the hook asks of the engine, the audio elements, the toasts and the call context. */
  datatype Effect =
    | UaStopped(ua: nat)
    | UaCreated(ua: nat, config: UaConfig)
    | UaStarted(ua: nat)
    | RegisterSent(ua: nat)
    | ErrorToast(text: string)
    | CallPlaced(ua: nat, destination: string)
    | SessionTerminated(session: string)
    | SessionAnswered(session: string)
    | SessionHeld(session: string)
    | SessionUnheld(session: string)
    | RingtonePlayed
    | RingtonePaused
    | StreamAttached(session: string)
    | EarlyMediaSetUp(session: string)
    | IncomingCallNotified(callerId: string)
    | CallConnectedNotified
    | CallTerminatedNotified(cause: string, code: int, reason: string)

  const LOOP_TOAST: string := "Phát hiện lỗi kết nối SIP liên tục, đang thử lại sau"
  const NOT_REGISTERED_TOAST: string := "Chưa kết nối SIP server"
  const CALL_FAILED_TOAST: string := "Không thể thực hiện cuộc gọi"
  const ANSWER_FAILED_TOAST: string := "Không thể chấp nhận cuộc gọi"

  /** Milliseconds within which a fourth or later initialisation counts as a loop. */
  const LOOP_WINDOW_MS: int := 10000

  /** A progress response's content type announces a session description. */
  predicate IsSdpContentType(contentType: Option<string>)
  {
    contentType.Some? && Contains(contentType.value, "sdp")
  }

  /** What ending a call emits: the ringtone stops (when there is one), then the context hears the outcome. */
  function EndNotices(hasRingtone: bool, cause: string, outcome: Outcome): (e: seq<Effect>)
    ensures |e| == if hasRingtone then 2 else 1
    ensures e[|e| - 1] == CallTerminatedNotified(cause, outcome.code, outcome.reason)
  {
    (if hasRingtone then [RingtonePaused] else []) + [CallTerminatedNotified(cause, outcome.code, outcome.reason)]
  }

  /**
   * What `newRTCSession` reports for a session it starts tracking: the
   * previous session is terminated, and an incoming call rings (when a
   * ringtone is loaded) and is announced to the call context.
   */
  function NewSessionEffects(previous: Option<string>, direction: Direction, hasRingtone: bool,
                             callerUser: string): seq<Effect>
  {
    (if previous.Some? then [SessionTerminated(previous.value)] else [])
    + (if direction == Incoming
       then (if hasRingtone then [RingtonePlayed] else []) + [IncomingCallNotified(callerUser)]
       else [])
  }

  /**
   * What the clean-up of the effect keyed on `ua` emits: the agent of the
   * previous render is stopped, the ringtone paused and the tracked session
   * terminated, each only when there is one.
   */
  function CleanupNotices(previous: Option<Ua>, ringtone: bool, tracked: Option<string>): (e: seq<Effect>)
    ensures (UaStopped(previous.value.id) in e) <== previous.Some?
    ensures (RingtonePaused in e) <==> ringtone
    ensures (SessionTerminated(tracked.value) in e) <== tracked.Some?
    ensures |e| == (if previous.Some? then 1 else 0) + (if ringtone then 1 else 0) + (if tracked.Some? then 1 else 0)
  {
    (if previous.Some? then [UaStopped(previous.value.id)] else [])
    + (if ringtone then [RingtonePaused] else [])
    + (if tracked.Some? then [SessionTerminated(tracked.value)] else [])
  }

  /** Without a loaded ringtone, a new session is announced but nothing rings. */
  lemma SilentWithoutRingtone(previous: Option<string>, direction: Direction, callerUser: string)
    ensures RingtonePlayed !in NewSessionEffects(previous, direction, false, callerUser)
    ensures direction == Incoming ==> IncomingCallNotified(callerUser) in NewSessionEffects(previous, direction, false, callerUser)
  {
    var e := NewSessionEffects(previous, direction, false, callerUser);
    var head := if previous.Some? then [SessionTerminated(previous.value)] else [];
    var tail := if direction == Incoming then [IncomingCallNotified(callerUser)] else [];
    assert e == head + tail;
    assert forall i :: 0 <= i < |e| ==> e[i] != RingtonePlayed by {
      forall i | 0 <= i < |e| ensures e[i] != RingtonePlayed {
        if i < |head| { assert e[i] == head[i]; } else { assert e[i] == tail[i - |head|]; }
      }
    }
    if direction == Incoming {
      assert e[|head|] == IncomingCallNotified(callerUser);
    }
  }

  class SipPhone {
    /** The current user agent (`ua` state) and whether it reports itself registered. */
    var ua: Option<Ua>
    var uaRegistered: bool
    var nextUaId: nat
    /** The React `session` state and the `sessionRef` ref, which can disagree. */
    var session: Option<string>
    var sessionRef: Option<string>
    /** The direction of every session seen, and the sessions whose handlers are attached. */
    var known: map<string, Direction>
    var listening: set<string>
    var callState: string
    var callDuration: string
    var statusCode: Option<int>
    var incomingCallerId: string
    /** `intervalIdRef`, and every running duration interval with its start time. */
    var intervalId: Option<nat>
    var timers: map<nat, int>
    var nextTimerId: nat
    var hasRingtone: bool
    var lastSipMessage: string
    var hasEarlyMedia: bool
    /** The sessions whose connection's `ontrack` handler `addStream` has replaced with its own. */
    var trackReplaced: set<string>
    /** The loop guard's counter and the time of the last initialisation. */
    var uaInitCount: nat
    var lastUaInitTime: int
    var effects: seq<Effect>

    ghost predicate Valid()
      reads this
    {
      (intervalId.Some? ==> intervalId.value in timers)
      && (forall t :: t in timers ==> t < nextTimerId)
      && (sessionRef.Some? ==> sessionRef.value in listening)
      && listening <= known.Keys
      && (ua.Some? ==> ua.value.id < nextUaId)
    }

    constructor()
      ensures Valid()
      ensures ua == None && !uaRegistered && session == None && sessionRef == None
      ensures known == map[] && listening == {}
      ensures callState == "" && callDuration == "" && statusCode == None && incomingCallerId == ""
      ensures intervalId == None && timers == map[] && !hasRingtone
      ensures lastSipMessage == "" && !hasEarlyMedia && trackReplaced == {}
      ensures uaInitCount == 0 && lastUaInitTime == 0 && effects == []
    {
      ua := None;
      uaRegistered := false;
      nextUaId := 0;
      session := None;
      sessionRef := None;
      known := map[];
      listening := {};
      callState := "";
      callDuration := "";
      statusCode := None;
      incomingCallerId := "";
      intervalId := None;
      timers := map[];
      nextTimerId := 1;
      hasRingtone := false;
      lastSipMessage := "";
      hasEarlyMedia := false;
      trackReplaced := {};
      uaInitCount := 0;
      lastUaInitTime := 0;
      effects := [];
    }

    /**
     * `detectSIPLoop`: counts the initialisation and reports a loop when it
     * is the fourth or later and came within ten seconds of the previous one.
     */
    method DetectSipLoop(now: int) returns (loop: bool)
      modifies this`uaInitCount, this`lastUaInitTime
      ensures uaInitCount == old(uaInitCount) + 1 && lastUaInitTime == now
      ensures loop <==> uaInitCount > 3 && now - old(lastUaInitTime) < LOOP_WINDOW_MS
      ensures old(uaInitCount) < 3 ==> !loop
    {
      uaInitCount := uaInitCount + 1;
      var sinceLast := now - lastUaInitTime;
      lastUaInitTime := now;
      loop := uaInitCount > 3 && sinceLast < LOOP_WINDOW_MS;
    }

    /**
     * `initSIP`: refuses during a loop; keeps a registered user agent; stops
     * an unregistered one; refuses an incomplete account (leaving the stopped
     * agent in place); otherwise creates, starts and registers a new agent.
     * `engineAccepts` is whether the engine accepts the configuration. Setting
     * the new agent re-runs the effect keyed on `ua`, whose clean-up then drops
     * the ringtone that was just loaded, so no later call rings.
     */
    method InitSip(config: SipConfig, now: int, engineAccepts: bool) returns (r: Option<Ua>)
      requires Valid()
      modifies this`uaInitCount, this`lastUaInitTime, this`effects, this`hasRingtone,
               this`nextUaId, this`ua, this`uaRegistered, this`intervalId, this`timers, this`sessionRef
      ensures Valid()
      ensures uaInitCount == old(uaInitCount) + 1 && lastUaInitTime == now
      ensures uaInitCount > 3 && now - old(lastUaInitTime) < LOOP_WINDOW_MS ==>
                r == None && ua == old(ua) && effects == old(effects) + [ErrorToast(LOOP_TOAST)]
                && uaRegistered == old(uaRegistered) && nextUaId == old(nextUaId) && hasRingtone == old(hasRingtone)
                && intervalId == old(intervalId) && timers == old(timers) && sessionRef == old(sessionRef)
      ensures !(uaInitCount > 3 && now - old(lastUaInitTime) < LOOP_WINDOW_MS) && old(ua).Some? && old(uaRegistered) ==>
                r == old(ua) && ua == old(ua) && effects == old(effects)
                && uaRegistered == old(uaRegistered) && nextUaId == old(nextUaId) && hasRingtone == old(hasRingtone)
                && intervalId == old(intervalId) && timers == old(timers) && sessionRef == old(sessionRef)
      ensures !(uaInitCount > 3 && now - old(lastUaInitTime) < LOOP_WINDOW_MS) && !(old(ua).Some? && old(uaRegistered))
              && !(ConfigComplete(config) && engineAccepts) ==>
                r == None && ua == old(ua)
                && effects == old(effects) + (if old(ua).Some? then [UaStopped(old(ua).value.id)] else [])
                && uaRegistered == old(uaRegistered) && nextUaId == old(nextUaId)
                && hasRingtone == (old(hasRingtone) || ConfigComplete(config))
                && intervalId == old(intervalId) && timers == old(timers) && sessionRef == old(sessionRef)
      ensures !(uaInitCount > 3 && now - old(lastUaInitTime) < LOOP_WINDOW_MS) && !(old(ua).Some? && old(uaRegistered))
              && ConfigComplete(config) && engineAccepts ==>
                var created := Ua(old(nextUaId), UaConfigFor(config));
                r == Some(created) && ua == r && !uaRegistered && nextUaId == old(nextUaId) + 1
                && effects == old(effects) + (if old(ua).Some? then [UaStopped(old(ua).value.id)] else [])
                   + [UaCreated(created.id, created.config), UaStarted(created.id), RegisterSent(created.id)]
                   + CleanupNotices(old(ua), true, old(sessionRef))
                && !hasRingtone && intervalId == None && sessionRef == None
                && timers == (if old(intervalId).Some? then old(timers) - {old(intervalId).value} else old(timers))
    {
      var loop := DetectSipLoop(now);
      if loop {
        effects := effects + [ErrorToast(LOOP_TOAST)];
        return None;
      }
      if ua.Some? && uaRegistered {
        return ua;
      }
      var stopped := if ua.Some? then [UaStopped(ua.value.id)] else [];
      effects := effects + stopped;
      if !ConfigComplete(config) {
        return None;
      }
      hasRingtone := true;
      if !engineAccepts {
        return None;
      }
      ghost var beforeStart := effects;
      r := StartAgent(config);
      assert effects == beforeStart + [UaCreated(r.value.id, r.value.config), UaStarted(r.value.id), RegisterSent(r.value.id)]
                        + CleanupNotices(old(ua), true, old(sessionRef));
    }

    /**
     * The end of a successful `initSIP`: a new agent is created, started,
     * registered and set as the `ua` state; the effect keyed on `ua` then
     * cleans up after the previous agent.
     */
    method StartAgent(config: SipConfig) returns (r: Option<Ua>)
      requires Valid()
      modifies this`effects, this`hasRingtone, this`nextUaId, this`ua, this`uaRegistered,
               this`intervalId, this`timers, this`sessionRef
      ensures Valid()
      ensures var created := Ua(old(nextUaId), UaConfigFor(config));
              r == Some(created) && ua == r && !uaRegistered && nextUaId == old(nextUaId) + 1
              && effects == old(effects) + [UaCreated(created.id, created.config), UaStarted(created.id), RegisterSent(created.id)]
                 + CleanupNotices(old(ua), old(hasRingtone), old(sessionRef))
      ensures !hasRingtone && intervalId == None && sessionRef == None
      ensures timers == if old(intervalId).Some? then old(timers) - {old(intervalId).value} else old(timers)
    {
      var previous := ua;
      var created := Ua(nextUaId, UaConfigFor(config));
      nextUaId := nextUaId + 1;
      effects := effects + [UaCreated(created.id, created.config), UaStarted(created.id), RegisterSent(created.id)];
      ua := Some(created);
      uaRegistered := false;
      r := ua;
      CleanUpUaEffect(previous);
    }

    /**
     * The clean-up of the effect keyed on `ua`, which React runs each time the
     * agent changes and at unmount, with the agent of the render it belonged
     * to: the interval in `intervalIdRef` is cleared, that agent stopped, the
     * ringtone paused and dropped, and the tracked session terminated and
     * forgotten.
     */
    method CleanUpUaEffect(previous: Option<Ua>)
      requires Valid()
      modifies this`intervalId, this`timers, this`hasRingtone, this`sessionRef, this`effects
      ensures Valid()
      ensures intervalId == None && !hasRingtone && sessionRef == None
      ensures timers == if old(intervalId).Some? then old(timers) - {old(intervalId).value} else old(timers)
      ensures effects == old(effects) + CleanupNotices(previous, old(hasRingtone), old(sessionRef))
    {
      if intervalId.Some? {
        timers := timers - {intervalId.value};
        intervalId := None;
      }
      effects := effects + CleanupNotices(previous, hasRingtone, sessionRef);
      hasRingtone := false;
      sessionRef := None;
    }

    /** The engine reports that the current agent registered or lost its registration. */
    method OnRegistrationChanged(registered: bool)
      modifies this`uaRegistered
      ensures uaRegistered == registered
    {
      uaRegistered := registered;
    }

    /**
     * `makeCall`: nothing without an agent; a toast when it is not
     * registered; otherwise clears the early-media flag and places the call.
     * `engineAccepts` is whether the engine accepts the call request.
     */
    method MakeCall(destination: string, engineAccepts: bool)
      modifies this`hasEarlyMedia, this`effects
      ensures ua.None? ==> hasEarlyMedia == old(hasEarlyMedia) && effects == old(effects)
      ensures ua.Some? && !uaRegistered ==>
                hasEarlyMedia == old(hasEarlyMedia) && effects == old(effects) + [ErrorToast(NOT_REGISTERED_TOAST)]
      ensures ua.Some? && uaRegistered ==> !hasEarlyMedia
      ensures ua.Some? && uaRegistered && engineAccepts ==>
                effects == old(effects) + [CallPlaced(ua.value.id, destination)]
      ensures ua.Some? && uaRegistered && !engineAccepts ==>
                effects == old(effects) + [ErrorToast(CALL_FAILED_TOAST)]
    {
      if ua.None? {
        return;
      }
      if !uaRegistered {
        effects := effects + [ErrorToast(NOT_REGISTERED_TOAST)];
        return;
      }
      hasEarlyMedia := false;
      if engineAccepts {
        effects := effects + [CallPlaced(ua.value.id, destination)];
      } else {
        effects := effects + [ErrorToast(CALL_FAILED_TOAST)];
      }
    }

    /** `endCall`: terminates the session held in React state, if any. */
    method EndCall()
      modifies this`effects
      ensures effects == old(effects) + if session.Some? then [SessionTerminated(session.value)] else []
    {
      if session.Some? {
        effects := effects + [SessionTerminated(session.value)];
      }
    }

    /** `acceptCall`: answers only an incoming session; a toast when the engine refuses. */
    method AcceptCall(engineAccepts: bool)
      modifies this`effects
      ensures var incoming := session.Some? && session.value in known && known[session.value] == Incoming;
              effects == old(effects) + if !incoming then []
                                       else if engineAccepts then [SessionAnswered(session.value)]
                                       else [ErrorToast(ANSWER_FAILED_TOAST)]
    {
      if session.Some? && session.value in known && known[session.value] == Incoming {
        if engineAccepts {
          effects := effects + [SessionAnswered(session.value)];
        } else {
          effects := effects + [ErrorToast(ANSWER_FAILED_TOAST)];
        }
      }
    }

    /** `holdCall`. */
    method HoldCall()
      modifies this`effects
      ensures effects == old(effects) + if session.Some? then [SessionHeld(session.value)] else []
    {
      if session.Some? {
        effects := effects + [SessionHeld(session.value)];
      }
    }

    /** `unholdCall`. */
    method UnholdCall()
      modifies this`effects
      ensures effects == old(effects) + if session.Some? then [SessionUnheld(session.value)] else []
    {
      if session.Some? {
        effects := effects + [SessionUnheld(session.value)];
      }
    }

    /** The agent's `newMessage` handler keeps the text of the last message received. */
    method OnSipMessage(received: bool, text: string)
      modifies this`lastSipMessage
      ensures lastSipMessage == if received then text else old(lastSipMessage)
    {
      if received {
        lastSipMessage := text;
      }
    }

    /**
     * A new session: a repeat of the tracked one is ignored; otherwise the
     * tracked one is terminated, the new one becomes current and its handlers
     * are attached, and an incoming one rings and is announced.
     */
    method OnNewRtcSession(id: string, direction: Direction, callerUser: string)
      requires Valid()
      modifies this`sessionRef, this`session, this`known, this`listening, this`callState,
               this`incomingCallerId, this`effects
      ensures Valid()
      ensures old(sessionRef) == Some(id) ==>
                sessionRef == old(sessionRef) && session == old(session) && listening == old(listening)
                && callState == old(callState) && effects == old(effects)
                && known == old(known) && incomingCallerId == old(incomingCallerId)
      ensures old(sessionRef) != Some(id) ==>
                sessionRef == Some(id) && session == Some(id) && known == old(known)[id := direction]
                && listening == old(listening) + {id}
                && effects == old(effects) + NewSessionEffects(old(sessionRef), direction, hasRingtone, callerUser)
                && callState == (if direction == Incoming then SipConstants.CALL_RINGING else old(callState))
                && incomingCallerId == (if direction == Incoming then callerUser else old(incomingCallerId))
    {
      if sessionRef != Some(id) {
        var announced := NewSessionEffects(sessionRef, direction, hasRingtone, callerUser);
        effects := effects + announced;
        session := Some(id);
        sessionRef := Some(id);
        known := known[id := direction];
        listening := listening + {id};
        assert listening <= known.Keys;
        if direction == Incoming {
          callState := SipConstants.CALL_RINGING;
          incomingCallerId := callerUser;
        }
        assert intervalId == old(intervalId) && timers == old(timers) && nextTimerId == old(nextTimerId);
        assert ua == old(ua) && nextUaId == old(nextUaId);
      }
    }

    predicate IsListening(id: string, direction: Direction)
      reads this
    {
      id in listening && id in known && known[id] == direction
    }

    /**
     * `progress` on an outgoing session: ringing; a remote response carrying
     * a session description stops the ringtone and sets up early media,
     * which marks early media present once the engine has a remote stream.
     */
    method OnProgress(id: string, fromRemote: bool, contentType: Option<string>, hasBody: bool,
                      remoteStreamReady: bool)
      modifies this`callState, this`hasEarlyMedia, this`effects
      ensures !IsListening(id, Outgoing) ==>
                callState == old(callState) && hasEarlyMedia == old(hasEarlyMedia) && effects == old(effects)
      ensures IsListening(id, Outgoing) ==>
                var early := fromRemote && IsSdpContentType(contentType) && hasBody;
                callState == SipConstants.CALL_RINGING
                && hasEarlyMedia == (old(hasEarlyMedia) || (early && remoteStreamReady))
                && effects == old(effects) + if early then (if hasRingtone then [RingtonePaused] else [])
                                                           + [EarlyMediaSetUp(id)]
                                             else []
    {
      if !IsListening(id, Outgoing) {
        return;
      }
      callState := SipConstants.CALL_RINGING;
      if fromRemote && IsSdpContentType(contentType) && hasBody {
        if hasRingtone {
          effects := effects + [RingtonePaused];
        }
        effects := effects + [EarlyMediaSetUp(id)];
        if remoteStreamReady {
          hasEarlyMedia := true;
        }
      }
    }

    /** An audio track on the connection of an outgoing session's `peerconnection` event sets up early media. */
    method OnAudioTrack(id: string, remoteStreamReady: bool)
      modifies this`hasEarlyMedia, this`effects
      ensures !IsListening(id, Outgoing) ==> hasEarlyMedia == old(hasEarlyMedia) && effects == old(effects)
      ensures IsListening(id, Outgoing) ==>
                hasEarlyMedia == (old(hasEarlyMedia) || remoteStreamReady)
                && effects == old(effects) + [EarlyMediaSetUp(id)]
    {
      if IsListening(id, Outgoing) {
        effects := effects + [EarlyMediaSetUp(id)];
        if remoteStreamReady {
          hasEarlyMedia := true;
        }
      }
    }

    /**
     * An audio track arriving on the connection a session already had when it
     * was adopted: that handler is attached whatever the direction and sets up
     * early media, until it is removed with the session's other handlers or
     * `addStream` replaces it with a handler that only plays the track.
     */
    method OnConnectionAudioTrack(id: string, remoteStreamReady: bool)
      modifies this`hasEarlyMedia, this`effects
      ensures id !in listening || id in trackReplaced ==> hasEarlyMedia == old(hasEarlyMedia) && effects == old(effects)
      ensures id in listening && id !in trackReplaced ==>
                hasEarlyMedia == (old(hasEarlyMedia) || remoteStreamReady)
                && effects == old(effects) + [EarlyMediaSetUp(id)]
    {
      if id in listening && id !in trackReplaced {
        effects := effects + [EarlyMediaSetUp(id)];
        if remoteStreamReady {
          hasEarlyMedia := true;
        }
      }
    }

    /** `connecting`: an outgoing session is ringing; an incoming one only logs. */
    method OnConnecting(id: string)
      modifies this`callState
      ensures callState == if IsListening(id, Outgoing) then SipConstants.CALL_RINGING else old(callState)
    {
      if IsListening(id, Outgoing) {
        callState := SipConstants.CALL_RINGING;
      }
    }

    /**
     * `peerconnection` on an incoming session attaches its stream to the
     * remote audio, which replaces the connection's `ontrack` handler.
     */
    method OnPeerConnection(id: string)
      modifies this`effects, this`trackReplaced
      ensures effects == old(effects) + if IsListening(id, Incoming) then [StreamAttached(id)] else []
      ensures trackReplaced == old(trackReplaced) + if IsListening(id, Incoming) then {id} else {}
    {
      if IsListening(id, Incoming) {
        effects := effects + [StreamAttached(id)];
        trackReplaced := trackReplaced + {id};
      }
    }

    /** Starts a duration interval and records it in `intervalIdRef`, without clearing a previous one. */
    method StartDurationTimer(now: int)
      requires Valid()
      modifies this`timers, this`intervalId, this`nextTimerId
      ensures Valid()
      ensures intervalId == Some(old(nextTimerId)) && old(nextTimerId) !in old(timers)
      ensures timers == old(timers)[old(nextTimerId) := now]
    {
      var t := nextTimerId;
      timers := timers[t := now];
      intervalId := Some(t);
      nextTimerId := nextTimerId + 1;
    }

    /**
     * `accepted`: the call is answered and a duration interval starts. An
     * outgoing call attaches the stream unless early media already plays and
     * notifies the context; an incoming call stops the ringtone. Attaching
     * the stream replaces the connection's `ontrack` handler.
     */
    method OnAccepted(id: string, now: int)
      requires Valid()
      modifies this`callState, this`effects, this`timers, this`intervalId, this`nextTimerId, this`trackReplaced
      ensures Valid()
      ensures trackReplaced == old(trackReplaced) + if IsListening(id, Outgoing) && !hasEarlyMedia then {id} else {}
      ensures !(IsListening(id, Outgoing) || IsListening(id, Incoming)) ==>
                callState == old(callState) && effects == old(effects) && timers == old(timers)
                && intervalId == old(intervalId)
      ensures IsListening(id, Outgoing) || IsListening(id, Incoming) ==>
                callState == SipConstants.CALL_ANSWERED
                && intervalId == Some(old(nextTimerId)) && timers == old(timers)[old(nextTimerId) := now]
      ensures IsListening(id, Outgoing) ==>
                effects == old(effects) + (if hasEarlyMedia then [] else [StreamAttached(id)])
                                        + [CallConnectedNotified]
      ensures IsListening(id, Incoming) ==>
                effects == old(effects) + if hasRingtone then [RingtonePaused] else []
    {
      if IsListening(id, Outgoing) {
        callState := SipConstants.CALL_ANSWERED;
        if !hasEarlyMedia {
          effects := effects + [StreamAttached(id)];
          trackReplaced := trackReplaced + {id};
        }
        StartDurationTimer(now);
        effects := effects + [CallConnectedNotified];
      } else if IsListening(id, Incoming) {
        callState := SipConstants.CALL_ANSWERED;
        if hasRingtone {
          effects := effects + [RingtonePaused];
        }
        StartDurationTimer(now);
      }
    }

    /** A running duration interval fires: the display shows the time since that interval started. */
    method OnTick(timer: nat, now: int)
      modifies this`callDuration
      ensures timer in timers ==> callDuration == CountTime(now - timers[timer])
      ensures timer !in timers ==> callDuration == old(callDuration)
    {
      if timer in timers {
        callDuration := CountTime(now - timers[timer]);
      }
    }

    /** `resetCall`: clears the interval in `intervalIdRef`, the duration and the early-media flag. */
    method ResetCall()
      requires Valid()
      modifies this`intervalId, this`timers, this`callDuration, this`hasEarlyMedia
      ensures Valid()
      ensures intervalId == None && callDuration == "" && !hasEarlyMedia
      ensures timers == if old(intervalId).Some? then old(timers) - {old(intervalId).value} else old(timers)
    {
      if intervalId.Some? {
        timers := timers - {intervalId.value};
        intervalId := None;
      }
      callDuration := "";
      hasEarlyMedia := false;
    }

    /**
     * `completeSession`: records the code, stops the current interval and
     * the ringtone, resets the call, forgets the tracked session, hangs up,
     * reports the outcome and drops the last message.
     */
    method CompleteSession(data: EndData)
      requires Valid()
      modifies this`statusCode, this`intervalId, this`timers, this`callDuration, this`hasEarlyMedia,
               this`sessionRef, this`callState, this`effects, this`lastSipMessage
      ensures Valid()
      ensures statusCode == Some(EndOutcome(old(lastSipMessage), data).code)
      ensures effects == old(effects) + EndNotices(hasRingtone, data.cause, EndOutcome(old(lastSipMessage), data))
      ensures callState == SipConstants.CALL_HANGUP && sessionRef == None && lastSipMessage == ""
      ensures intervalId == None && callDuration == "" && !hasEarlyMedia
      ensures timers == if old(intervalId).Some? then old(timers) - {old(intervalId).value} else old(timers)
    {
      var outcome := EndOutcome(lastSipMessage, data);
      var notices := EndNotices(hasRingtone, data.cause, outcome);
      Conclude(outcome.code, notices);
    }

    /** The state changes of `completeSession` once its code and notices are known. */
    method Conclude(code: int, notices: seq<Effect>)
      requires Valid()
      modifies this`statusCode, this`intervalId, this`timers, this`callDuration, this`hasEarlyMedia,
               this`sessionRef, this`callState, this`effects, this`lastSipMessage
      ensures Valid()
      ensures statusCode == Some(code) && effects == old(effects) + notices
      ensures callState == SipConstants.CALL_HANGUP && sessionRef == None && lastSipMessage == ""
      ensures intervalId == None && callDuration == "" && !hasEarlyMedia
      ensures timers == if old(intervalId).Some? then old(timers) - {old(intervalId).value} else old(timers)
    {
      statusCode := Some(code);
      ResetCall();
      sessionRef := None;
      callState := SipConstants.CALL_HANGUP;
      effects := effects + notices;
      lastSipMessage := "";
    }

    /**
     * `ended` or `failed` on a session whose handlers are attached:
     * `completeSession`, then the session's handlers are removed.
     */
    method OnSessionEnd(id: string, data: EndData)
      requires Valid()
      modifies this`statusCode, this`intervalId, this`timers, this`callDuration, this`hasEarlyMedia,
               this`sessionRef, this`callState, this`effects, this`lastSipMessage, this`listening
      ensures Valid()
      ensures id !in old(listening) ==>
                statusCode == old(statusCode) && intervalId == old(intervalId) && timers == old(timers)
                && callDuration == old(callDuration) && hasEarlyMedia == old(hasEarlyMedia)
                && sessionRef == old(sessionRef) && callState == old(callState) && effects == old(effects)
                && lastSipMessage == old(lastSipMessage) && listening == old(listening)
      ensures id in old(listening) ==>
                statusCode == Some(EndOutcome(old(lastSipMessage), data).code)
                && effects == old(effects) + EndNotices(hasRingtone, data.cause, EndOutcome(old(lastSipMessage), data))
                && callState == SipConstants.CALL_HANGUP && sessionRef == None && lastSipMessage == ""
                && intervalId == None && callDuration == "" && !hasEarlyMedia
                && timers == (if old(intervalId).Some? then old(timers) - {old(intervalId).value} else old(timers))
                && listening == old(listening) - {id}
    {
      if id !in listening {
        return;
      }
      CompleteSession(data);
      listening := listening - {id};
    }
  }
}
