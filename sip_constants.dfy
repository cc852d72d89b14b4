/** Constants shared by the SIP layer: call states, short Vietnamese code messages, timeouts. */
module SipConstants {
  import opened Wrappers
  import SipCodes

  /** The values `callState` takes (`CALL_STATES`). */
  const CALL_IDLE: string := "idle"
  const CALL_RINGING: string := "ringing"
  const CALL_ANSWERED: string := "answered"
  const CALL_HANGUP: string := "hangup"
  const CALL_HOLD: string := "hold"

  /** `SIP_CODE_MESSAGES`: short Vietnamese texts for the codes a call most often ends with. */
  function SipCodeMessage(code: int): Option<string>
  {
    match code
    case 100 => Some("Đang thử kết nối")
    case 180 => Some("Đang đổ chuông")
    case 183 => Some("Đang tiến hành")
    case 200 => Some("Thành công")
    case 400 => Some("Yêu cầu không hợp lệ")
    case 401 => Some("Cần xác thực")
    case 403 => Some("Bị từ chối")
    case 404 => Some("Không tìm thấy")
    case 408 => Some("Hết thời gian chờ")
    case 480 => Some("Tạm thời không liên lạc được")
    case 486 => Some("Máy bận")
    case 487 => Some("Cuộc gọi đã hủy")
    case 488 => Some("Không chấp nhận")
    case 500 => Some("Lỗi máy chủ")
    case 503 => Some("Dịch vụ không khả dụng")
    case 600 => Some("Bận ở mọi nơi")
    case 603 => Some("Từ chối")
    case _ => None
  }

  /** Seconds the engine waits for an answer (`NO_ANSWER_TIMEOUT`). */
  const NO_ANSWER_TIMEOUT: int := 45

  /** `MAX_RECONNECT_ATTEMPTS`; nothing in the modelled code reads it. */
  const MAX_RECONNECT_ATTEMPTS: int := 3

  /** `DEBUG_SIP`; only gates console output. */
  const DEBUG_SIP: bool := true

  /** The five call states are pairwise different strings. */
  lemma CallStatesDistinct()
    ensures |{CALL_IDLE, CALL_RINGING, CALL_ANSWERED, CALL_HANGUP, CALL_HOLD}| == 5
  {
    assert CALL_IDLE[0] == 'i' && CALL_RINGING[0] == 'r' && CALL_ANSWERED[0] == 'a';
    assert CALL_HANGUP[1] == 'a' && CALL_HOLD[1] == 'o';
    assert CALL_HANGUP != CALL_HOLD;
  }

  /**
   * Every code with a short message is also in the `SIP_CODES` catalogue,
   * every short message is non-empty, and 200 is the only success code among them.
   */
  lemma ShortMessagesCatalogued(code: int)
    requires SipCodeMessage(code).Some?
    ensures SipCodes.Catalogued(code)
    ensures SipCodeMessage(code).value != ""
    ensures 200 <= code < 300 <==> code == 200
  {
  }
}
