/**
 * How a finished call is explained: the SIP status code read out of the last
 * raw SIP message received, the three-tier fallback that picks the code a
 * call ended with, and the Vietnamese reason shown for it.
 */
module SipSession {
  import opened Wrappers
  import opened Strings
  import SipConstants

  // ---------------------------------------------------------------------
  // Reading a status code out of a raw SIP message
  // ---------------------------------------------------------------------

  /** The end of the maximal run of decimal digits that starts at `i`. */
  function DigitRunEnd(s: string, i: nat): (e: nat)
    requires i <= |s|
    ensures i <= e <= |s|
    ensures forall k :: i <= k < e ==> IsDigit(s[k])
    ensures e == |s| || !IsDigit(s[e])
    decreases |s| - i
  {
    if i < |s| && IsDigit(s[i]) then DigitRunEnd(s, i + 1) else i
  }

  const STATUS_PREFIX: string := "SIP/2.0 "

  /**
   * `/SIP\/2\.0 (\d+)\s/` matches at `p`: the prefix, a digit run, then a
   * whitespace character. Backtracking into a shorter digit run cannot help,
   * since the next character would then be a digit.
   */
  predicate StatusLineAt(s: string, p: nat)
  {
    p + |STATUS_PREFIX| <= |s| && s[p..p + |STATUS_PREFIX|] == STATUS_PREFIX
    && var e := DigitRunEnd(s, p + |STATUS_PREFIX|);
       p + |STATUS_PREFIX| < e < |s| && IsJsSpace(s[e])
  }

  /** The captured code of a status-line match at `p`, read as `parseInt(…, 10)` does. */
  function StatusCodeAt(s: string, p: nat): nat
    requires StatusLineAt(s, p)
  {
    var d := s[p + |STATUS_PREFIX|..DigitRunEnd(s, p + |STATUS_PREFIX|)];
    DigitsValue(d)
  }

  /** The leftmost status-line match at or after `from`. */
  function FindStatusLine(s: string, from: nat): (r: Option<nat>)
    ensures r.Some? ==> from <= r.value && StatusLineAt(s, r.value)
    ensures forall q :: from <= q && (r.None? || q < r.value) ==> !StatusLineAt(s, q)
    decreases |s| - from
  {
    if from + |STATUS_PREFIX| >= |s| then None
    else if StatusLineAt(s, from) then Some(from)
    else FindStatusLine(s, from + 1)
  }

  /** The characters `[A-Za-z\s]`. */
  predicate InWordClass(c: char)
  {
    IsAsciiLetter(c) || IsJsSpace(c)
  }

  /** A multiline `$` holds at `q`: end of input, or just before a line terminator. */
  predicate LineEndAt(s: string, q: nat)
  {
    q == |s| || (q < |s| && IsLineTerminator(s[q]))
  }

  predicate WordRun(s: string, a: nat, b: nat)
    requires a <= b <= |s|
  {
    forall k :: a <= k < b ==> InWordClass(s[k])
  }

  /**
   * What follows the digit run ending at `e` satisfies `\s+[A-Za-z\s]+$`:
   * a whitespace character, at least one more word-class character, and a
   * line end right after them.
   */
  predicate WordTailAt(s: string, e: nat)
  {
    e < |s| && IsJsSpace(s[e])
    && exists q :: e + 2 <= q <= |s| && WordRun(s, e + 1, q) && LineEndAt(s, q)
  }

  /** `/(\d+)\s+[A-Za-z\s]+$/m` matches at `p`. */
  predicate CodeLineAt(s: string, p: nat)
  {
    p < |s| && IsDigit(s[p]) && WordTailAt(s, DigitRunEnd(s, p))
  }

  function CodeLineValue(s: string, p: nat): nat
    requires CodeLineAt(s, p)
  {
    DigitsValue(s[p..DigitRunEnd(s, p)])
  }

  /** Scans the word-class run from `k`, looking for a line end at or after `e + 2`. */
  function ScanWordTail(s: string, e: nat, k: nat): (found: bool)
    requires e + 1 <= k <= |s| && WordRun(s, e + 1, k)
    ensures found <==> exists q :: k <= q <= |s| && e + 2 <= q && WordRun(s, e + 1, q) && LineEndAt(s, q)
    decreases |s| - k
  {
    if k >= e + 2 && LineEndAt(s, k) then true
    else if k < |s| && InWordClass(s[k]) then
      var r := ScanWordTail(s, e, k + 1);
      assert (exists q :: k <= q <= |s| && e + 2 <= q && WordRun(s, e + 1, q) && LineEndAt(s, q))
             ==> r by {
        if exists q :: k <= q <= |s| && e + 2 <= q && WordRun(s, e + 1, q) && LineEndAt(s, q) {
          var q :| k <= q <= |s| && e + 2 <= q && WordRun(s, e + 1, q) && LineEndAt(s, q);
          assert q != k;
        }
      }
      r
    else
      false
  }

  /** Decides `WordTailAt` by scanning. */
  function HasWordTail(s: string, e: nat): (r: bool)
    ensures r <==> WordTailAt(s, e)
  {
    e < |s| && IsJsSpace(s[e]) && ScanWordTail(s, e, e + 1)
  }

  /** The leftmost fallback match at or after `from`. */
  function FindCodeLine(s: string, from: nat): (r: Option<nat>)
    ensures r.Some? ==> from <= r.value && CodeLineAt(s, r.value)
    ensures forall q :: from <= q && (r.None? || q < r.value) ==> !CodeLineAt(s, q)
    decreases |s| - from
  {
    if from >= |s| then None
    else if IsDigit(s[from]) && HasWordTail(s, DigitRunEnd(s, from)) then Some(from)
    else FindCodeLine(s, from + 1)
  }

  /**
   * `extractSipCodeFromMessage`: the code of the leftmost status line, else
   * that of the leftmost code-then-words line, else none.
   */
  function ExtractSipCode(msg: string): (r: Option<nat>)
    ensures r.None? <==> (forall p: nat :: !StatusLineAt(msg, p)) && (forall p: nat :: !CodeLineAt(msg, p))
  {
    match FindStatusLine(msg, 0)
    case Some(p) => Some(StatusCodeAt(msg, p))
    case None =>
      match FindCodeLine(msg, 0)
      case Some(p) => Some(CodeLineValue(msg, p))
      case None => None
  }

  /** The leftmost status line decides the code, whatever follows it. */
  lemma ExtractLeftmostStatusLine(msg: string, p: nat)
    requires StatusLineAt(msg, p)
    requires forall q: nat :: q < p ==> !StatusLineAt(msg, q)
    ensures ExtractSipCode(msg) == Some(StatusCodeAt(msg, p))
  {
  }

  /** Without any status line, the leftmost code-then-words line decides the code. */
  lemma ExtractLeftmostCodeLine(msg: string, p: nat)
    requires forall q: nat :: !StatusLineAt(msg, q)
    requires CodeLineAt(msg, p)
    requires forall q: nat :: q < p ==> !CodeLineAt(msg, q)
    ensures ExtractSipCode(msg) == Some(CodeLineValue(msg, p))
  {
  }

  /** A message opening with a status line yields exactly that line's code. */
  lemma ExtractStatusLineRoundTrip(code: nat, sp: char, rest: string)
    requires IsJsSpace(sp)
    ensures ExtractSipCode(STATUS_PREFIX + NatToString(code) + [sp] + rest) == Some(code)
  {
    var digits := NatToString(code);
    var msg := STATUS_PREFIX + digits + [sp] + rest;
    var n := |STATUS_PREFIX|;
    assert msg[..n] == STATUS_PREFIX;
    assert msg[n..n + |digits|] == digits;
    assert msg[n + |digits|] == sp;
    RunEndAt(msg, n, n + |digits|);
    assert StatusLineAt(msg, 0);
    NatToStringRoundTrip(code);
    ExtractLeftmostStatusLine(msg, 0);
  }

  /** A message that is a code, a space and a word (a reason phrase) yields that code. */
  lemma ExtractCodeLineRoundTrip(code: nat, word: string)
    requires word != [] && forall i :: 0 <= i < |word| ==> IsAsciiLetter(word[i])
    ensures ExtractSipCode(NatToString(code) + " " + word) == Some(code)
  {
    var digits := NatToString(code);
    var msg := digits + " " + word;
    var e := |digits|;
    assert msg[..e] == digits;
    RunEndAt(msg, 0, e);
    forall q: nat
      ensures !StatusLineAt(msg, q)
    {
      if q + |STATUS_PREFIX| <= |msg| && msg[q..q + |STATUS_PREFIX|] == STATUS_PREFIX {
        assert msg[q + 3] == STATUS_PREFIX[3];
      }
    }
    assert WordRun(msg, e + 1, |msg|);
    assert LineEndAt(msg, |msg|);
    assert CodeLineAt(msg, 0);
    NatToStringRoundTrip(code);
    assert msg[0..e] == digits;
    ExtractLeftmostCodeLine(msg, 0);
  }

  lemma RunEndAt(s: string, i: nat, e: nat)
    requires i <= e <= |s|
    requires forall k :: i <= k < e ==> IsDigit(s[k])
    requires e == |s| || !IsDigit(s[e])
    ensures DigitRunEnd(s, i) == e
    decreases e - i
  {
    if i < e {
      RunEndAt(s, i + 1, e);
    }
  }

  // ---------------------------------------------------------------------
  // Choosing the code and reason a call ended with
  // ---------------------------------------------------------------------

  /**
   * What the engine reports with an `ended` or `failed` event: the cause,
   * who ended the call, and the optional numeric fields the handler probes
   * (`message.status_code`, `message.statusCode`, `statusCode`, `status`).
   */
  datatype EndData = EndData(cause: string, originator: string,
                             messageStatusCode: Option<int>, messageStatusCodeAlt: Option<int>,
                             statusCode: Option<int>, status: Option<int>)

  /** A JavaScript number field is truthy: present and not zero. */
  predicate Truthy(o: Option<int>)
  {
    o.Some? && o.value != 0
  }

  /** Tier 1: the code read from the last received SIP message, when there is one. */
  function MessageCode(lastMessage: string): (r: Option<int>)
    ensures lastMessage == "" ==> r.None?
  {
    if lastMessage == "" then None
    else match ExtractSipCode(lastMessage)
      case Some(c) => Some(c)
      case None => None
  }

  /** Tier 2: the code carried by the end event itself, the first truthy source in order. */
  function EventCode(data: EndData): (r: Option<int>)
    ensures r.Some? ==> r.value != 0
  {
    if data.cause == "CANCELED" || data.cause == "Canceled" then Some(487)
    else if data.cause == "BYE" then Some(200)
    else if Truthy(data.messageStatusCode) then data.messageStatusCode
    else if Truthy(data.messageStatusCodeAlt) then data.messageStatusCodeAlt
    else if Truthy(data.statusCode) then data.statusCode
    else if Truthy(data.status) then data.status
    else None
  }

  /** The cause-to-code table of tier 3. */
  function CauseCode(cause: string): (r: Option<int>)
    ensures r.Some? ==> 200 <= r.value < 700
  {
    match cause
    case "BYE" => Some(200)
    case "CANCELED" => Some(487)
    case "Canceled" => Some(487)
    case "NO_ANSWER" => Some(408)
    case "REJECTED" => Some(603)
    case "BUSY" => Some(486)
    case "TRANSPORT_ERROR" => Some(503)
    case "Dialog/Transaction does not exist" => Some(481)
    case "User Denied Media Access" => Some(403)
    case "WebRTC not supported" => Some(488)
    case "Not Found" => Some(404)
    case "Connection Error" => Some(503)
    case "Timer J expired" => Some(408)
    case "Request Timeout" => Some(408)
    case _ => None
  }

  /** Tier 3: a local hang-up is a normal end; otherwise the cause table, defaulting to 500. */
  function CauseTierCode(data: EndData): (r: int)
    ensures 200 <= r < 700
  {
    if data.cause == "Terminated" && data.originator == "local" then 200
    else match CauseCode(data.cause)
      case Some(c) => c
      case None => 500
  }

  /** The code `completeSession` settles on: the first tier that yields a non-zero code. */
  function EndCode(lastMessage: string, data: EndData): (code: int)
    ensures code != 0
  {
    var m := MessageCode(lastMessage);
    if Truthy(m) then m.value
    else
      var ev := EventCode(data);
      if ev.Some? then ev.value else CauseTierCode(data)
  }

  /** The reason text for a code, and whether the call counts as successful. */
  datatype Verdict = Verdict(reason: string, successful: bool)

  /** `SIP_CODE_MESSAGES` first; otherwise the fallback ladder by code. */
  function ReasonFor(code: int): (v: Verdict)
  {
    match SipConstants.SipCodeMessage(code)
    case Some(msg) => Verdict(msg, 200 <= code < 300)
    case None =>
      if 200 <= code < 300 then Verdict("Kết thúc bình thường", true)
      else if code == 487 then Verdict("Cuộc gọi bị hủy", false)
      else if code == 408 then Verdict("Không trả lời", false)
      else if code == 486 || code == 600 then Verdict("Máy bận", false)
      else if code == 480 then Verdict("Không liên lạc được", false)
      else if code == 603 then Verdict("Từ chối cuộc gọi", false)
      else if 400 <= code < 500 then Verdict("Lỗi phía client", false)
      else if 500 <= code < 600 then Verdict("Lỗi máy chủ", false)
      else if code >= 600 then Verdict("Lỗi toàn cục", false)
      else Verdict("Kết thúc cuộc gọi", false)
  }

  /** The outcome `completeSession` reports to `onCallTerminated`. */
  datatype Outcome = Outcome(code: int, reason: string, successful: bool)

  function EndOutcome(lastMessage: string, data: EndData): (o: Outcome)
    ensures o.code != 0
    ensures o.successful <==> 200 <= o.code < 300
    ensures o.reason != ""
  {
    var code := EndCode(lastMessage, data);
    var v := ReasonFor(code);
    ReasonForIsSound(code);
    Outcome(code, v.reason, v.successful)
  }

  /** Every reason is non-empty, and exactly the 2xx codes count as successful. */
  lemma ReasonForIsSound(code: int)
    ensures ReasonFor(code).reason != ""
    ensures ReasonFor(code).successful <==> 200 <= code < 300
  {
    if SipConstants.SipCodeMessage(code).Some? {
      SipConstants.ShortMessagesCatalogued(code);
    }
  }

  /** A code found in the last SIP message wins over everything the end event carries. */
  lemma MessageCodeOverridesEvent(lastMessage: string, d1: EndData, d2: EndData)
    requires Truthy(MessageCode(lastMessage))
    ensures EndCode(lastMessage, d1) == EndCode(lastMessage, d2) == MessageCode(lastMessage).value
  {
  }

  /** Without a code from the message, a cancelled call ends with 487 whatever numeric fields the event carries. */
  lemma CancelledCallIs487(lastMessage: string, data: EndData)
    requires !Truthy(MessageCode(lastMessage))
    requires data.cause in {"CANCELED", "Canceled"}
    ensures EndOutcome(lastMessage, data) == Outcome(487, "Cuộc gọi đã hủy", false)
  {
    assert EventCode(data) == Some(487);
    assert EndCode(lastMessage, data) == 487;
    assert ReasonFor(487) == Verdict("Cuộc gọi đã hủy", false);
  }

  /** Without a code from the message, a BYE ends the call normally whatever numeric fields the event carries. */
  lemma ByeEndsAt200(lastMessage: string, data: EndData)
    requires !Truthy(MessageCode(lastMessage))
    requires data.cause == "BYE"
    ensures EndOutcome(lastMessage, data) == Outcome(200, "Thành công", true)
  {
    assert EventCode(data) == Some(200);
    assert EndCode(lastMessage, data) == 200;
    assert ReasonFor(200) == Verdict("Thành công", true);
  }

  /** The event's numeric fields in the order the handler probes them. */
  function EventFields(data: EndData): (r: seq<Option<int>>)
    ensures |r| == 4
  {
    [data.messageStatusCode, data.messageStatusCodeAlt, data.statusCode, data.status]
  }

  /**
   * Without a code from the message and with a cause other than a cancel or
   * a BYE, the first truthy field of the event decides the code; when none
   * is truthy the cause tier does.
   */
  lemma FirstTruthyFieldDecides(lastMessage: string, data: EndData)
    requires !Truthy(MessageCode(lastMessage))
    requires data.cause !in {"CANCELED", "Canceled", "BYE"}
    ensures forall i :: 0 <= i < 4 && Truthy(EventFields(data)[i])
                        && (forall j :: 0 <= j < i ==> !Truthy(EventFields(data)[j])) ==>
              EndOutcome(lastMessage, data).code == EventFields(data)[i].value
    ensures (forall i :: 0 <= i < 4 ==> !Truthy(EventFields(data)[i])) ==>
              EndOutcome(lastMessage, data).code == CauseTierCode(data)
  {
    var f := EventFields(data);
    assert EndOutcome(lastMessage, data).code == EndCode(lastMessage, data);
    forall i | 0 <= i < 4 && Truthy(f[i]) && (forall j :: 0 <= j < i ==> !Truthy(f[j]))
      ensures EndCode(lastMessage, data) == f[i].value
    {
      if i > 0 { assert !Truthy(f[0]); }
      if i > 1 { assert !Truthy(f[1]); }
      if i > 2 { assert !Truthy(f[2]); }
    }
    if forall i :: 0 <= i < 4 ==> !Truthy(f[i]) {
      assert !Truthy(f[0]) && !Truthy(f[1]) && !Truthy(f[2]) && !Truthy(f[3]);
      assert EventCode(data).None?;
    }
  }

  /** A call the local user hung up, with no code anywhere, is a normal successful end. */
  lemma LocalHangupIsSuccess(lastMessage: string, data: EndData)
    requires !Truthy(MessageCode(lastMessage))
    requires data.cause == "Terminated" && data.originator == "local"
    requires EventCode(data).None?
    ensures EndOutcome(lastMessage, data) == Outcome(200, "Thành công", true)
  {
    assert EndCode(lastMessage, data) == 200;
    assert ReasonFor(200) == Verdict("Thành công", true);
  }

  /** A busy callee with no code anywhere ends the call with 486 and the busy text. */
  lemma BusyCalleeIs486(lastMessage: string, data: EndData)
    requires !Truthy(MessageCode(lastMessage))
    requires data.cause == "BUSY"
    requires EventCode(data).None?
    ensures EndOutcome(lastMessage, data) == Outcome(486, "Máy bận", false)
  {
    assert CauseTierCode(data) == 486;
    assert EndCode(lastMessage, data) == 486;
    assert ReasonFor(486) == Verdict("Máy bận", false);
  }

  /** A cause outside the table, with no code anywhere, ends the call as a server error. */
  lemma UnknownCauseIs500(lastMessage: string, data: EndData)
    requires !Truthy(MessageCode(lastMessage))
    requires EventCode(data).None? && CauseCode(data.cause).None?
    requires !(data.cause == "Terminated" && data.originator == "local")
    ensures EndOutcome(lastMessage, data) == Outcome(500, "Lỗi máy chủ", false)
  {
    assert CauseTierCode(data) == 500;
    assert EndCode(lastMessage, data) == 500;
    assert ReasonFor(500) == Verdict("Lỗi máy chủ", false);
  }

  /** A final response line such as "SIP/2.0 486 Busy Here" decides the outcome of the call. */
  lemma StatusLineDecidesOutcome(code: nat, sp: char, rest: string, data: EndData)
    requires IsJsSpace(sp) && code != 0
    ensures EndOutcome(STATUS_PREFIX + NatToString(code) + [sp] + rest, data).code == code
  {
    ExtractStatusLineRoundTrip(code, sp, rest);
  }
}
