/** Direct pushes to the LINE Messaging API: the LINE user-id format check, the
    status and priority emoji tables, the push body, and the guards that decide
    whether a request is made at all. The HTTP call itself is reduced to whether
    a request was made, with which body, and whether the response was ok. */
module LineNotifications {
  import opened Common

  predicate IsHexDigit(c: char) {
    IsDigit(c) || ('a' <= c <= 'f') || ('A' <= c <= 'F')
  }

  /** `[0-9a-f]{n}$` under the `i` flag: exactly `n` hexadecimal digits of either case. */
  function HexRun(s: string, n: nat): (ok: bool)
    ensures ok <==> |s| == n && forall k :: 0 <= k < |s| ==> IsHexDigit(s[k])
  {
    if n == 0 then s == []
    else s != [] && IsHexDigit(s[0]) && HexRun(s[1..], n - 1)
  }

  /** `isValidLineUserId`, `/^U[0-9a-f]{32}$/i`: 33 characters, a 'U' of either case
      and then 32 hexadecimal digits of either case. */
  function IsValidLineUserId(lineUserId: string): (ok: bool)
    ensures ok <==> && |lineUserId| == 33
                    && (lineUserId[0] == 'U' || lineUserId[0] == 'u')
                    && forall k :: 1 <= k < 33 ==> IsHexDigit(lineUserId[k])
  {
    var ok := lineUserId != [] && (lineUserId[0] == 'U' || lineUserId[0] == 'u') && HexRun(lineUserId[1..], 32);
    assert ok ==> forall k :: 1 <= k < 33 ==> lineUserId[k] == lineUserId[1..][k - 1];
    ok
  }

  // ---------------------------------------------------------------------------
  // Emoji tables

  const StatusEmojiKeys: set<string> :=
    {"PENDING", "IN_PROGRESS", "WAITING_PARTS", "COMPLETED", "CANCELLED", "ON_HOLD"}

  const PriorityKeys: set<string> := {"LOW", "MEDIUM", "HIGH", "URGENT"}

  /** `getStatusEmoji` of this module: one emoji per known status (ON_HOLD included),
      and the clipboard for anything else. */
  function GetStatusEmoji(status: string): (emoji: string)
    ensures emoji == "📋" <==> status !in StatusEmojiKeys
    ensures emoji in {"⏳", "🔧", "📦", "✅", "❌", "⏸️", "📋"}
  {
    if status == "PENDING" then "⏳"
    else if status == "IN_PROGRESS" then "🔧"
    else if status == "WAITING_PARTS" then "📦"
    else if status == "COMPLETED" then "✅"
    else if status == "CANCELLED" then "❌"
    else if status == "ON_HOLD" then "⏸️"
    else "📋"
  }

  /** `getPriorityEmoji`: a coloured circle per known priority; the white circle for
      an absent, empty or unknown priority. */
  function GetPriorityEmoji(priority: Option<string>): (emoji: string)
    ensures emoji == "⚪" <==> !(Truthy(priority) && priority.value in PriorityKeys)
    ensures emoji in {"🟢", "🟡", "🟠", "🔴", "⚪"}
  {
    if !Truthy(priority) then "⚪"
    else if priority.value == "LOW" then "🟢"
    else if priority.value == "MEDIUM" then "🟡"
    else if priority.value == "HIGH" then "🟠"
    else if priority.value == "URGENT" then "🔴"
    else "⚪"
  }

  // ---------------------------------------------------------------------------
  // Push requests

  /** A LINE text message; its `type` is always "text". */
  datatype TextMessage = TextMessage(text: string)

  datatype PushBody = PushBody(to: string, messages: seq<TextMessage>)

  /** Whether a push request was made, and how it ended. A thrown fetch error is a
      response that is not ok. */
  datatype Delivery = NotAttempted | Attempted(body: PushBody, ok: bool)

  predicate Delivered(d: Delivery) {
    d.Attempted? && d.ok
  }

  /** The body both senders post: addressed to `to`, carrying one text message. */
  function MakePushBody(to: string, message: string): (b: PushBody)
    ensures b.to == to && |b.messages| == 1 && b.messages[0].text == message
  {
    PushBody(to, [TextMessage(message)])
  }

  /** `sendLineNotificationToUser`: without an access token no request is made and
      the result is false; otherwise one push to the user carrying the message, and
      the result is whether the response was ok. */
  function SendLineNotificationToUser(accessToken: Option<string>, lineUserId: string, message: string,
                                      responseOk: bool): (d: Delivery)
    ensures d.NotAttempted? <==> !Truthy(accessToken)
    ensures d.Attempted? ==> d.body == MakePushBody(lineUserId, message) && d.ok == responseOk
    ensures Delivered(d) <==> Truthy(accessToken) && responseOk
  {
    if !Truthy(accessToken) then NotAttempted
    else Attempted(MakePushBody(lineUserId, message), responseOk)
  }

  /** `sendLineGroupNotification`: needs both the access token and the group id. */
  function SendLineGroupNotification(accessToken: Option<string>, groupId: Option<string>, message: string,
                                     responseOk: bool): (d: Delivery)
    ensures d.NotAttempted? <==> !Truthy(accessToken) || !Truthy(groupId)
    ensures d.Attempted? ==> d.body == MakePushBody(groupId.value, message) && d.ok == responseOk
  {
    if !Truthy(accessToken) || !Truthy(groupId) then NotAttempted
    else Attempted(MakePushBody(groupId.value, message), responseOk)
  }

  // ---------------------------------------------------------------------------
  // Repair-ticket notification

  datatype TicketInfo = TicketInfo(
    ticketNumber: string,
    title: string,
    status: string,
    description: Option<string>,
    priority: Option<string>)

  /** The lines of the notification text. The priority line and the description line
      are empty unless those fields are given; `timeText` is the locale-formatted
      current time. */
  function RepairMessageLines(info: TicketInfo, timeText: string): (lines: seq<string>)
    ensures |lines| == 9
    ensures GetStatusEmoji(info.status) <= lines[0]
    ensures lines[5] != "" <==> Truthy(info.priority)
    ensures Truthy(info.priority) ==> GetPriorityEmoji(info.priority) <= lines[5]
    ensures lines[6] != "" <==> Truthy(info.description)
    ensures |timeText| <= |lines[8]| && lines[8][|lines[8]| - |timeText|..] == timeText
  {
    [ GetStatusEmoji(info.status) + " แจ้งเตือนสถานะการซ่อม",
      "",
      "📋 หมายเลข: " + info.ticketNumber,
      "🏷️ หัวข้อ: " + info.title,
      "📊 สถานะ: " + info.status,
      if Truthy(info.priority) then GetPriorityEmoji(info.priority) + " ความสำคัญ: " + info.priority.value else "",
      if Truthy(info.description) then "📝 รายละเอียด: " + info.description.value else "",
      "",
      "🕐 เวลา: " + timeText ]
  }

  function RepairMessage(info: TicketInfo, timeText: string): string {
    Join(RepairMessageLines(info, timeText), "\n")
  }

  /** `sendRepairTicketNotification`: an id that fails the format check gives false
      without any request; otherwise the composed message goes to that id through
      `sendLineNotificationToUser`. */
  function SendRepairTicketNotification(accessToken: Option<string>, lineUserId: string, info: TicketInfo,
                                        timeText: string, responseOk: bool): (d: Delivery)
    ensures !IsValidLineUserId(lineUserId) ==> d.NotAttempted?
    ensures d.Attempted? <==> IsValidLineUserId(lineUserId) && Truthy(accessToken)
    ensures d.Attempted? ==> d.body == MakePushBody(lineUserId, RepairMessage(info, timeText))
  {
    if !IsValidLineUserId(lineUserId) then NotAttempted
    else SendLineNotificationToUser(accessToken, lineUserId, RepairMessage(info, timeText), responseOk)
  }
}
