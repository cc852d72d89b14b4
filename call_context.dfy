/**
 * The call context: dialling input clean-up and validation, the end-of-call
 * summary shown to the user, and the hold / microphone / speaker toggles
 * that are reset when a call hangs up.
 *
 * What the context asks of the SIP hook is appended to `requests`; the hook
 * itself is modelled in `UseSip`.
 */
module CallContext {
  import opened Wrappers
  import opened Strings
  import SipCodes
  import SipConstants
  import SipSession
  import UseSip

  // ---------------------------------------------------------------------
  // Dialling
  // ---------------------------------------------------------------------

  /** The characters kept by `replace(/[^\d+]/g, '')`: ASCII digits and '+'. */
  predicate IsDialChar(c: char)
  {
    IsDigit(c) || c == '+'
  }

  predicate AllDialChars(s: string)
  {
    forall i :: 0 <= i < |s| ==> IsDialChar(s[i])
  }

  /** The number of dialable characters in `s`. */
  function DialCount(s: string): nat
  {
    if s == [] then 0 else DialCount(s[..|s| - 1]) + if IsDialChar(s[|s| - 1]) then 1 else 0
  }

  /** Every character that is not a digit or '+' removed, the rest kept in order. */
  function CleanDestination(s: string): (r: string)
    ensures AllDialChars(r)
    ensures |r| == DialCount(s) && |r| <= |s|
  {
    if s == [] then ""
    else CleanDestination(s[..|s| - 1]) + if IsDialChar(s[|s| - 1]) then [s[|s| - 1]] else []
  }

  /** Cleaning a cleaned number changes nothing. */
  lemma {:induction false} CleanDestinationIdempotent(s: string)
    requires AllDialChars(s)
    ensures CleanDestination(s) == s
    decreases |s|
  {
    if s != [] {
      CleanDestinationIdempotent(s[..|s| - 1]);
      assert s == s[..|s| - 1] + [s[|s| - 1]];
    }
  }

  /** Cleaning commutes with concatenation, so separators anywhere in the input are dropped alike. */
  lemma {:induction false} CleanDestinationAppend(a: string, b: string)
    ensures CleanDestination(a + b) == CleanDestination(a) + CleanDestination(b)
    decreases |b|
  {
    if b == [] {
      assert a + b == a;
    } else {
      var last := |b| - 1;
      assert (a + b)[..|a + b| - 1] == a + b[..last];
      CleanDestinationAppend(a, b[..last]);
    }
  }

  const EMPTY_NUMBER_WARNING: string := "Vui lòng nhập số điện thoại"
  const INVALID_NUMBER_WARNING: string := "Số điện thoại không hợp lệ"

  /** What `makeCall` does with the input: warn, or dial the cleaned number. */
  datatype DialDecision = Warn(text: string) | Dial(number: string)

  function DecideDial(destination: string): (d: DialDecision)
    ensures d.Dial? ==> |d.number| >= 3 && AllDialChars(d.number) && d.number == CleanDestination(destination)
    ensures d.Warn? <==> DialCount(destination) < 3
  {
    if destination == "" then Warn(EMPTY_NUMBER_WARNING)
    else
      var clean := CleanDestination(destination);
      if |clean| < 3 then Warn(INVALID_NUMBER_WARNING) else Dial(clean)
  }

  /** Two inputs with the same dialable characters lead to the same call. */
  lemma DialDependsOnlyOnDialChars(a: string, b: string)
    requires a != "" && b != "" && CleanDestination(a) == CleanDestination(b)
    ensures DecideDial(a) == DecideDial(b)
  {
  }

  /** Separators alone clean to nothing, so they never make a number long enough to dial. */
  lemma {:induction false} CleanSeparatorsOnly(s: string)
    requires forall i :: 0 <= i < |s| ==> !IsDialChar(s[i])
    ensures CleanDestination(s) == ""
    decreases |s|
  {
    if s != [] {
      CleanSeparatorsOnly(s[..|s| - 1]);
    }
  }

  // ---------------------------------------------------------------------
  // End-of-call summary
  // ---------------------------------------------------------------------

  /** The local fallback table of `mapCodeToReason`. */
  function LocalReason(code: int): Option<string>
  {
    match code
    case 200 => Some("Kết thúc bình thường")
    case 400 => Some("Yêu cầu không hợp lệ")
    case 401 => Some("Cần xác thực")
    case 403 => Some("Truy cập bị từ chối")
    case 404 => Some("Không tìm thấy người dùng")
    case 408 => Some("Hết thời gian chờ")
    case 480 => Some("Tạm thời không liên lạc được")
    case 481 => Some("Cuộc gọi không tồn tại")
    case 486 => Some("Máy bận")
    case 487 => Some("Yêu cầu đã bị hủy")
    case 488 => Some("Không chấp nhận")
    case 500 => Some("Lỗi máy chủ nội bộ")
    case 503 => Some("Dịch vụ không khả dụng")
    case 600 => Some("Bận toàn bộ")
    case 603 => Some("Từ chối")
    case 604 => Some("Không tồn tại ở mọi nơi")
    case _ => None
  }

  /** Every code of the local table is also catalogued, so the catalogue always answers first. */
  lemma LocalReasonUnreachable(code: int)
    requires LocalReason(code).Some?
    ensures SipCodes.Catalogued(code)
  {
  }

  const UNKNOWN_REASON_PREFIX: string := "Lỗi không xác định (Code: "

  /** `mapCodeToReason`: the catalogue's Vietnamese name, the local table, or a message naming the code. */
  function MapCodeToReason(code: int): (r: string)
    ensures SipCodes.Catalogued(code) ==> r == SipCodes.SipCodeEntry(code).value.vietnameseName
    ensures !SipCodes.Catalogued(code) ==> StartsWith(r, UNKNOWN_REASON_PREFIX) && EndsWith(r, ")")
  {
    match SipCodes.GetSIPCodeInfo(code)
    case Some(info) => info.vietnameseName
    case None =>
      match LocalReason(code)
      case Some(text) =>
        LocalReasonUnreachable(code);
        assert false;
        text
      case None => UNKNOWN_REASON_PREFIX + IntToString(code) + ")"
  }

  /** What the user is told about the last call. */
  datatype CallEndInfo = CallEndInfo(code: Option<int>, reason: string, successful: bool)

  /** `onCallTerminated`: the reported code and reason; the code's own text only when no reason came. */
  function EndInfoFor(code: int, reason: string): (info: CallEndInfo)
    ensures info.code == Some(code)
    ensures info.successful <==> SipCodes.IsSIPCodeSuccess(code)
    ensures reason != "" ==> info.reason == reason
  {
    CallEndInfo(Some(code), if reason != "" then reason else MapCodeToReason(code), 200 <= code < 300)
  }

  /** The hook always supplies a reason, so the summary repeats the hook's outcome exactly. */
  lemma EndInfoMatchesHookOutcome(lastMessage: string, data: SipSession.EndData)
    ensures var o := SipSession.EndOutcome(lastMessage, data);
            EndInfoFor(o.code, o.reason) == CallEndInfo(Some(o.code), o.reason, o.successful)
  {
  }

  /** `isCallActive`. */
  predicate IsCallActive(callState: string)
  {
    callState == SipConstants.CALL_RINGING || callState == SipConstants.CALL_ANSWERED
  }

  // ---------------------------------------------------------------------
  // The context's state
  // ---------------------------------------------------------------------

  /** What the context asks of the SIP hook or shows the user. */
  datatype HookRequest =
    | InitRequested(config: UseSip.SipConfig)
    | DialRequested(number: string)
    | HoldRequested | UnholdRequested
    | MicDisabled | MicEnabled
    | AudioMuted | AudioUnmuted
    | Toast(text: string)

  const MISSING_CONFIG_TOAST: string := "Không thể khởi tạo SIP: Thiếu cấu hình"

  /**
   * What the three toggle effects ask of the hook when they all run: hold or
   * unhold, disable or enable the microphone, mute or unmute, each as its
   * flag says.
   */
  function ToggleRequests(isHold: bool, isDisableMic: bool, isMuteAudio: bool): (r: seq<HookRequest>)
    ensures |r| == 3
    ensures (HoldRequested in r <==> isHold) && (UnholdRequested in r <==> !isHold)
    ensures (MicDisabled in r <==> isDisableMic) && (MicEnabled in r <==> !isDisableMic)
    ensures (AudioMuted in r <==> isMuteAudio) && (AudioUnmuted in r <==> !isMuteAudio)
  {
    [if isHold then HoldRequested else UnholdRequested,
     if isDisableMic then MicDisabled else MicEnabled,
     if isMuteAudio then AudioMuted else AudioUnmuted]
  }

  class CallControls {
    var isHold: bool
    var isDisableMic: bool
    var isMuteAudio: bool
    var callEndInfo: CallEndInfo
    var requests: seq<HookRequest>

    /**
     * On mount every toggle effect runs once with its initial value, so the
     * hook is asked to unhold, enable the microphone and unmute.
     */
    constructor()
      ensures !isHold && !isDisableMic && !isMuteAudio
      ensures callEndInfo == CallEndInfo(None, "", false)
      ensures requests == [UnholdRequested, MicEnabled, AudioUnmuted]
      ensures requests == ToggleRequests(isHold, isDisableMic, isMuteAudio)
    {
      isHold := false;
      isDisableMic := false;
      isMuteAudio := false;
      callEndInfo := CallEndInfo(None, "", false);
      requests := [UnholdRequested, MicEnabled, AudioUnmuted];
    }

    /** `initSIP`: a toast when the account has no SIP settings, otherwise the hook initialises. */
    method InitSip(config: Option<UseSip.SipConfig>)
      modifies this`requests
      ensures requests == old(requests) + if config.None? then [Toast(MISSING_CONFIG_TOAST)]
                                          else [InitRequested(config.value)]
    {
      if config.None? {
        requests := requests + [Toast(MISSING_CONFIG_TOAST)];
      } else {
        requests := requests + [InitRequested(config.value)];
      }
    }

    /** `makeCall`: warns about an empty or too short number, otherwise dials the cleaned number. */
    method MakeCall(destination: string)
      modifies this`requests
      ensures match DecideDial(destination)
              case Warn(text) => requests == old(requests) + [Toast(text)]
              case Dial(number) => requests == old(requests) + [DialRequested(number)]
    {
      if destination == "" {
        requests := requests + [Toast(EMPTY_NUMBER_WARNING)];
        return;
      }
      var clean := CleanDestination(destination);
      if |clean| < 3 {
        requests := requests + [Toast(INVALID_NUMBER_WARNING)];
        return;
      }
      requests := requests + [DialRequested(clean)];
    }

    /** `onCallTerminated`. */
    method OnCallTerminated(code: int, reason: string)
      modifies this`callEndInfo
      ensures callEndInfo == EndInfoFor(code, reason)
    {
      callEndInfo := EndInfoFor(code, reason);
    }

    /** `handleHold`: flips the flag, whose effect then holds or unholds; returns the new value. */
    method HandleHold() returns (held: bool)
      modifies this`isHold, this`requests
      ensures held == !old(isHold) && isHold == held
      ensures requests == old(requests) + [if held then HoldRequested else UnholdRequested]
    {
      isHold := !isHold;
      requests := requests + [if isHold then HoldRequested else UnholdRequested];
      held := isHold;
    }

    /** `handleDisableMic`. */
    method HandleDisableMic() returns (disabled: bool)
      modifies this`isDisableMic, this`requests
      ensures disabled == !old(isDisableMic) && isDisableMic == disabled
      ensures requests == old(requests) + [if disabled then MicDisabled else MicEnabled]
    {
      isDisableMic := !isDisableMic;
      requests := requests + [if isDisableMic then MicDisabled else MicEnabled];
      disabled := isDisableMic;
    }

    /** `handleMuteAudio`. */
    method HandleMuteAudio() returns (muted: bool)
      modifies this`isMuteAudio, this`requests
      ensures muted == !old(isMuteAudio) && isMuteAudio == muted
      ensures requests == old(requests) + [if muted then AudioMuted else AudioUnmuted]
    {
      isMuteAudio := !isMuteAudio;
      requests := requests + [if isMuteAudio then AudioMuted else AudioUnmuted];
      muted := isMuteAudio;
    }

    /**
     * The hook's `session` changed: its hold, microphone and audio callbacks
     * are new, so all three toggle effects run again and send the current
     * flags to the new session.
     */
    method OnHookSessionChange()
      modifies this`requests
      ensures requests == old(requests) + ToggleRequests(isHold, isDisableMic, isMuteAudio)
    {
      requests := requests + ToggleRequests(isHold, isDisableMic, isMuteAudio);
    }

    /** The hook's remote audio element changed: only the audio toggle's effect runs again. */
    method OnRemoteAudioChange()
      modifies this`requests
      ensures requests == old(requests) + [if isMuteAudio then AudioMuted else AudioUnmuted]
      ensures requests[|old(requests)|..] == ToggleRequests(isHold, isDisableMic, isMuteAudio)[2..]
    {
      requests := requests + [if isMuteAudio then AudioMuted else AudioUnmuted];
    }

    /**
     * The call-state effect: on hang-up all three toggles go off, and the
     * effect of each toggle that was on undoes it at the hook.
     */
    method OnCallStateChange(callState: string)
      modifies this`isHold, this`isDisableMic, this`isMuteAudio, this`requests
      ensures callState != SipConstants.CALL_HANGUP ==>
                isHold == old(isHold) && isDisableMic == old(isDisableMic)
                && isMuteAudio == old(isMuteAudio) && requests == old(requests)
      ensures callState == SipConstants.CALL_HANGUP ==>
                !isHold && !isDisableMic && !isMuteAudio
                && requests == old(requests) + (if old(isHold) then [UnholdRequested] else [])
                               + (if old(isDisableMic) then [MicEnabled] else [])
                               + (if old(isMuteAudio) then [AudioUnmuted] else [])
    {
      if callState == SipConstants.CALL_HANGUP {
        var undo := (if isHold then [UnholdRequested] else [])
                    + (if isDisableMic then [MicEnabled] else [])
                    + (if isMuteAudio then [AudioUnmuted] else []);
        isHold := false;
        isDisableMic := false;
        isMuteAudio := false;
        requests := requests + undo;
      }
    }
  }
}
