/**
 * The SIP status-code catalogue: one record per response code of RFC 3261
 * (and its extensions) with an English title, a description and the
 * Vietnamese name shown to the user, and the helpers that classify a code.
 */
module SipCodes {
  import opened Wrappers
  import opened Strings

  /** The classes a code falls into; the catalogue records only the five non-provisional ones. */
  datatype Category = Provisional | Success | Redirect | ClientError | ServerError | GlobalError | Unknown

  datatype SipCodeInfo = Info(code: int, category: Category, title: string,
                              description: string, vietnameseName: string)

  /** The numeric part of a `SIP_CODES` entry: the code it carries and its category. */
  datatype CodeRow = Row(code: int, category: Category)

  /** The textual part of a `SIP_CODES` entry. */
  datatype CodeTexts = Texts(title: string, description: string, vietnameseName: string)

  /** The codes and categories of the `SIP_CODES` catalogue, keyed by code; `None` for a code it does not list. */
  function CatalogueRow(code: int): Option<CodeRow>
  {
    match code
    case 100 => Some(Row(100, Success))
    case 180 => Some(Row(180, Success))
    case 181 => Some(Row(181, Success))
    case 182 => Some(Row(182, Success))
    case 183 => Some(Row(183, Success))
    case 200 => Some(Row(200, Success))
    case 202 => Some(Row(202, Success))
    case 300 => Some(Row(300, Redirect))
    case 301 => Some(Row(301, Redirect))
    case 302 => Some(Row(302, Redirect))
    case 305 => Some(Row(305, Redirect))
    case 380 => Some(Row(380, Redirect))
    case 400 => Some(Row(400, ClientError))
    case 401 => Some(Row(401, ClientError))
    case 402 => Some(Row(402, ClientError))
    case 403 => Some(Row(403, ClientError))
    case 404 => Some(Row(404, ClientError))
    case 405 => Some(Row(405, ClientError))
    case 406 => Some(Row(406, ClientError))
    case 407 => Some(Row(407, ClientError))
    case 408 => Some(Row(408, ClientError))
    case 409 => Some(Row(409, ClientError))
    case 410 => Some(Row(410, ClientError))
    case 411 => Some(Row(411, ClientError))
    case 413 => Some(Row(413, ClientError))
    case 414 => Some(Row(414, ClientError))
    case 415 => Some(Row(415, ClientError))
    case 416 => Some(Row(416, ClientError))
    case 420 => Some(Row(420, ClientError))
    case 421 => Some(Row(421, ClientError))
    case 422 => Some(Row(422, ClientError))
    case 423 => Some(Row(423, ClientError))
    case 428 => Some(Row(428, ClientError))
    case 429 => Some(Row(429, ClientError))
    case 433 => Some(Row(433, ClientError))
    case 436 => Some(Row(436, ClientError))
    case 437 => Some(Row(437, ClientError))
    case 438 => Some(Row(438, ClientError))
    case 480 => Some(Row(480, ClientError))
    case 481 => Some(Row(481, ClientError))
    case 482 => Some(Row(482, ClientError))
    case 483 => Some(Row(483, ClientError))
    case 484 => Some(Row(484, ClientError))
    case 485 => Some(Row(485, ClientError))
    case 486 => Some(Row(486, ClientError))
    case 487 => Some(Row(487, ClientError))
    case 488 => Some(Row(488, ClientError))
    case 489 => Some(Row(489, ClientError))
    case 491 => Some(Row(491, ClientError))
    case 493 => Some(Row(493, ClientError))
    case 494 => Some(Row(494, ClientError))
    case 500 => Some(Row(500, ServerError))
    case 501 => Some(Row(501, ServerError))
    case 502 => Some(Row(502, ServerError))
    case 503 => Some(Row(503, ServerError))
    case 504 => Some(Row(504, ServerError))
    case 505 => Some(Row(505, ServerError))
    case 513 => Some(Row(513, ServerError))
    case 580 => Some(Row(580, ServerError))
    case 600 => Some(Row(600, GlobalError))
    case 603 => Some(Row(603, GlobalError))
    case 604 => Some(Row(604, GlobalError))
    case 606 => Some(Row(606, GlobalError))
    case _ => None
  }

  /** The titles, descriptions and Vietnamese names of the `SIP_CODES` catalogue, keyed by code. */
  function CatalogueTexts(code: int): CodeTexts
  {
    match code
    case 100 => Texts("Trying",
      "Extended search being performed may take a significant time so a forking proxy must send a 100 Trying response",
      "Đang thử")
    case 180 => Texts("Ringing",
      "Destination user agent received INVITE, and is alerting user of call",
      "Đang đổ chuông")
    case 181 => Texts("Call is Being Forwarded",
      "Servers can optionally send this response to indicate a call is being forwarded",
      "Cuộc gọi đang được chuyển tiếp")
    case 182 => Texts("Queued",
      "Called party is temporarily unavailable, but server has decided to queue the call rather than reject it",
      "Đang xếp hàng đợi")
    case 183 => Texts("Session Progress",
      "Used to convey information about the progress of the call that is not otherwise classified",
      "Đang tiến hành")
    case 200 => Texts("OK",
      "Request was successful",
      "Thành công")
    case 202 => Texts("Accepted",
      "Request has been accepted for processing, but the processing has not been completed",
      "Đã chấp nhận")
    case 300 => Texts("Multiple Choices",
      "The address resolved to one of several options for the user or client to choose between",
      "Nhiều lựa chọn")
    case 301 => Texts("Moved Permanently",
      "The user can no longer be found at the address in the Request-URI",
      "Đã chuyển vĩnh viễn")
    case 302 => Texts("Moved Temporarily",
      "The requesting client should retry the request at the new address given by the Contact header field",
      "Đã chuyển tạm thời")
    case 305 => Texts("Use Proxy",
      "The requested resource must be accessed through the proxy given by the Contact field",
      "Sử dụng proxy")
    case 380 => Texts("Alternative Service",
      "The call was not successful, but alternative services are possible",
      "Dịch vụ thay thế")
    case 400 => Texts("Bad Request",
      "The request could not be understood due to malformed syntax",
      "Yêu cầu không hợp lệ")
    case 401 => Texts("Unauthorized",
      "The request requires user authentication",
      "Cần xác thực")
    case 402 => Texts("Payment Required",
      "Reserved for future use",
      "Yêu cầu thanh toán")
    case 403 => Texts("Forbidden",
      "The server understood the request, but is refusing to fulfill it",
      "Bị từ chối")
    case 404 => Texts("Not Found",
      "The server has definitive information that the user does not exist at the domain specified",
      "Không tìm thấy")
    case 405 => Texts("Method Not Allowed",
      "The method specified in the Request-Line is not allowed for the address identified by the Request-URI",
      "Phương thức không được cho phép")
    case 406 => Texts("Not Acceptable",
      "The resource identified by the request is only capable of generating response entities which have content characteristics not acceptable according to the Accept header sent in the request",
      "Không chấp nhận được")
    case 407 => Texts("Proxy Authentication Required",
      "The client must first authenticate itself with the proxy",
      "Yêu cầu xác thực proxy")
    case 408 => Texts("Request Timeout",
      "The server could not produce a response within a suitable amount of time",
      "Hết thời gian chờ")
    case 409 => Texts("Conflict",
      "The request could not be completed due to a conflict with the current state of the resource",
      "Xung đột")
    case 410 => Texts("Gone",
      "The requested resource is no longer available at the server and no forwarding address is known",
      "Đã mất")
    case 411 => Texts("Length Required",
      "The server refuses to accept the request without a defined Content-Length",
      "Yêu cầu độ dài")
    case 413 => Texts("Request Entity Too Large",
      "The server is refusing to process a request because the request entity is larger than the server is willing or able to process",
      "Yêu cầu quá lớn")
    case 414 => Texts("Request-URI Too Long",
      "The server is refusing to service the request because the Request-URI is longer than the server is willing to interpret",
      "URI yêu cầu quá dài")
    case 415 => Texts("Unsupported Media Type",
      "The server is refusing to service the request because the message body of the request is in a format not supported by the server for the requested method",
      "Kiểu media không được hỗ trợ")
    case 416 => Texts("Unsupported URI Scheme",
      "The server cannot process the request because the scheme of the URI in the Request-URI is unknown to the server",
      "Scheme URI không được hỗ trợ")
    case 420 => Texts("Bad Extension",
      "The server did not understand the protocol extension specified in a Proxy-Require or Require header field",
      "Phần mở rộng không hợp lệ")
    case 421 => Texts("Extension Required",
      "The server needs a specific extension not listed in the Supported header",
      "Yêu cầu phần mở rộng")
    case 422 => Texts("Session Interval Too Small",
      "The received request contains a Session-Expires header with a duration below the minimum timer",
      "Khoảng thời gian phiên quá nhỏ")
    case 423 => Texts("Interval Too Brief",
      "The server is refusing to process the request because the expiration time of the resource refreshment is too short",
      "Khoảng thời gian quá ngắn")
    case 428 => Texts("Use Identity Header",
      "The server policy requires an Identity header, and one has not been provided",
      "Sử dụng tiêu đề Identity")
    case 429 => Texts("Provide Referrer Identity",
      "The server did not receive a valid Referred-By token in the request",
      "Cung cấp thông tin giới thiệu")
    case 433 => Texts("Anonymity Disallowed",
      "The request has been rejected because it was anonymous",
      "Không cho phép ẩn danh")
    case 436 => Texts("Bad Identity-Info",
      "The Identity-Info header contains a URI that cannot be dereferenced, or the certificate referenced by the URI is bad",
      "Thông tin nhận dạng không hợp lệ")
    case 437 => Texts("Unsupported Certificate",
      "The server was unable to validate a certificate for the domain that signed the request",
      "Chứng chỉ không được hỗ trợ")
    case 438 => Texts("Invalid Identity Header",
      "The server obtained a valid certificate, but was unable to validate the signature in the Identity header field",
      "Tiêu đề nhận dạng không hợp lệ")
    case 480 => Texts("Temporarily Unavailable",
      "The callee is currently unavailable",
      "Tạm thời không liên lạc được")
    case 481 => Texts("Call/Transaction Does Not Exist",
      "The UAS received a request that does not match any existing dialog or transaction",
      "Cuộc gọi không tồn tại")
    case 482 => Texts("Loop Detected",
      "The server has detected a loop",
      "Phát hiện vòng lặp")
    case 483 => Texts("Too Many Hops",
      "The server received a request that contains a Max-Forwards header with the value zero",
      "Quá nhiều chặng")
    case 484 => Texts("Address Incomplete",
      "The server received a request with a Request-URI that was incomplete",
      "Địa chỉ không đầy đủ")
    case 485 => Texts("Ambiguous",
      "The Request-URI was ambiguous",
      "Không rõ ràng")
    case 486 => Texts("Busy Here",
      "The callee is busy",
      "Máy bận")
    case 487 => Texts("Request Terminated",
      "The request was terminated by a BYE or CANCEL request",
      "Yêu cầu đã bị hủy")
    case 488 => Texts("Not Acceptable Here",
      "The response indicates that the server could not understand the media parameters",
      "Không chấp nhận ở đây")
    case 489 => Texts("Bad Event",
      "The server did not understand an event package specified in an Event header field",
      "Sự kiện không hợp lệ")
    case 491 => Texts("Request Pending",
      "The request was received by a UAS that had a pending request within the same dialog",
      "Yêu cầu đang chờ xử lý")
    case 493 => Texts("Undecipherable",
      "The request contains an encrypted MIME body that the recipient cannot decrypt",
      "Không giải mã được")
    case 494 => Texts("Security Agreement Required",
      "The server has received a request that requires a negotiated security mechanism",
      "Yêu cầu thỏa thuận bảo mật")
    case 500 => Texts("Server Internal Error",
      "The server encountered an unexpected condition that prevented it from fulfilling the request",
      "Lỗi máy chủ nội bộ")
    case 501 => Texts("Not Implemented",
      "The server does not support the functionality required to fulfill the request",
      "Chưa được triển khai")
    case 502 => Texts("Bad Gateway",
      "The server, while acting as a gateway or proxy, received an invalid response from the downstream server",
      "Lỗi gateway")
    case 503 => Texts("Service Unavailable",
      "The server is temporarily unable to handle the request due to a temporary overloading or maintenance of the server",
      "Dịch vụ không khả dụng")
    case 504 => Texts("Server Time-out",
      "The server did not receive a timely response from an external server it needed to access in order to complete the request",
      "Hết thời gian chờ máy chủ")
    case 505 => Texts("Version Not Supported",
      "The server does not support, or refuses to support, the SIP protocol version in the request",
      "Phiên bản không được hỗ trợ")
    case 513 => Texts("Message Too Large",
      "The server was unable to process the request since the message length exceeded its capabilities",
      "Tin nhắn quá lớn")
    case 580 => Texts("Precondition Failure",
      "The server is unable to meet the requirements specified in the Require header",
      "Lỗi điều kiện tiên quyết")
    case 600 => Texts("Busy Everywhere",
      "All possible destinations are busy",
      "Bận ở mọi nơi")
    case 603 => Texts("Decline",
      "The destination does not wish to participate in the call",
      "Từ chối")
    case 604 => Texts("Does Not Exist Anywhere",
      "The server has authoritative information that the user indicated in the Request-URI does not exist anywhere",
      "Không tồn tại ở bất kỳ đâu")
    case 606 => Texts("Not Acceptable",
      "The user's agent was contacted successfully but some aspects of the session description were not acceptable",
      "Không chấp nhận được")
    case _ => Texts("", "", "")
  }

  /** The full `SIP_CODES` entry for `code`. */
  function SipCodeEntry(code: int): Option<SipCodeInfo>
  {
    match CatalogueRow(code)
    case None => None
    case Some(row) =>
      var t := CatalogueTexts(code);
      Some(Info(row.code, row.category, t.title, t.description, t.vietnameseName))
  }

  predicate Catalogued(code: int)
  {
    CatalogueRow(code).Some?
  }

  /** Every catalogue entry carries the code it is filed under, and lies in 100..699. */
  lemma CatalogueWellFiled(code: int)
    requires Catalogued(code)
    ensures CatalogueRow(code).value.code == code
    ensures 100 <= code < 700
  {
  }

  /** `getSIPCodeInfo`: the catalogue entry for `code`, or none (an entry object is always truthy). */
  function GetSIPCodeInfo(code: int): (r: Option<SipCodeInfo>)
    ensures r.Some? <==> Catalogued(code)
    ensures r.Some? ==> r.value.code == code && 100 <= code < 700
    ensures r == SipCodeEntry(code)
  {
    if Catalogued(code) then
      CatalogueWellFiled(code);
      SipCodeEntry(code)
    else None
  }

  /** `isSIPCodeSuccess`. */
  predicate IsSIPCodeSuccess(code: int)
  {
    200 <= code < 300
  }

  /** `isSIPCodeError`: any code from 400 up, including values beyond 699. */
  predicate IsSIPCodeError(code: int)
  {
    code >= 400
  }

  const UNKNOWN_CODE_PREFIX: string := "Mã SIP không xác định ("

  /** `getSIPCodeMessage`: the Vietnamese name, or a message naming the unknown code. */
  function GetSIPCodeMessage(code: int): (r: string)
    ensures Catalogued(code) ==> r == SipCodeEntry(code).value.vietnameseName
    ensures !Catalogued(code) ==> StartsWith(r, UNKNOWN_CODE_PREFIX) && EndsWith(r, ")")
  {
    match GetSIPCodeInfo(code)
    case None => UNKNOWN_CODE_PREFIX + IntToString(code) + ")"
    case Some(info) => info.vietnameseName
  }

  /** The message for an unknown non-negative code spells out the code, which reads back exactly. */
  lemma UnknownMessageNamesCode(code: nat)
    requires !Catalogued(code)
    ensures var r := GetSIPCodeMessage(code);
            var digits := r[|UNKNOWN_CODE_PREFIX|..|r| - 1];
            AllDigits(digits) && DigitsValue(digits) == code
  {
    var r := GetSIPCodeMessage(code);
    assert r[|UNKNOWN_CODE_PREFIX|..|r| - 1] == NatToString(code);
    NatToStringRoundTrip(code);
  }

  /** `getSIPCodeCategory`: the class of the hundred block a code lies in, or unknown outside 100..699. */
  function GetSIPCodeCategory(code: int): (r: Category)
    ensures r == Unknown <==> !(100 <= code < 700)
    ensures r == Success <==> IsSIPCodeSuccess(code)
  {
    if 100 <= code < 200 then Provisional
    else if 200 <= code < 300 then Success
    else if 300 <= code < 400 then Redirect
    else if 400 <= code < 500 then ClientError
    else if 500 <= code < 600 then ServerError
    else if 600 <= code < 700 then GlobalError
    else Unknown
  }

  /** All codes of one hundred block share a category. */
  lemma CategoryByHundred(a: int, b: int)
    requires 100 <= a < 700 && 100 <= b < 700 && a / 100 == b / 100
    ensures GetSIPCodeCategory(a) == GetSIPCodeCategory(b)
  {
  }

  /** Below 700, the error predicate and the three error categories agree. */
  lemma ErrorIffErrorCategory(code: int)
    requires code < 700
    ensures IsSIPCodeError(code) <==>
            GetSIPCodeCategory(code) in {ClientError, ServerError, GlobalError}
  {
  }

  /**
   * The catalogue agrees with `getSIPCodeCategory` on every entry from 200 up;
   * its 1xx entries are filed as success while the function calls them provisional.
   */
  lemma CatalogueCategories(code: int)
    requires Catalogued(code)
    ensures code >= 200 ==> CatalogueRow(code).value.category == GetSIPCodeCategory(code)
    ensures code < 200 ==> CatalogueRow(code).value.category == Success
                           && GetSIPCodeCategory(code) == Provisional
  {
    CatalogueWellFiled(code);
    if code < 200 { Category1xx(code); }
    else if code < 300 { Category2xx(code); }
    else if code < 400 { Category3xx(code); }
    else if code < 500 { Category4xx(code); }
    else if code < 600 { Category5xx(code); }
    else { Category6xx(code); }
  }

  lemma Category1xx(code: int)
    requires Catalogued(code) && 100 <= code < 200
    ensures CatalogueRow(code).value.category == Success
  {
  }

  lemma Category2xx(code: int)
    requires Catalogued(code) && 200 <= code < 300
    ensures CatalogueRow(code).value.category == Success
  {
  }

  lemma Category3xx(code: int)
    requires Catalogued(code) && 300 <= code < 400
    ensures CatalogueRow(code).value.category == Redirect
  {
  }

  lemma Category4xx(code: int)
    requires Catalogued(code) && 400 <= code < 500
    ensures CatalogueRow(code).value.category == ClientError
  {
  }

  lemma Category5xx(code: int)
    requires Catalogued(code) && 500 <= code < 600
    ensures CatalogueRow(code).value.category == ServerError
  {
  }

  lemma Category6xx(code: int)
    requires Catalogued(code) && 600 <= code < 700
    ensures CatalogueRow(code).value.category == GlobalError
  {
  }

}
