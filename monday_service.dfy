/** The Monday.com adapter (`MondayService`): the vocabularies between internal
    ticket statuses and priorities and the board's Thai labels, the projection of
    an incoming webhook body, and the configuration guards of the two remote calls.
    Every lookup is a total table with a fail-open default. */
module MondayService {
  import opened Common
  import opened Store

  /** The board's Thai status labels. */
  const ThaiStatusLabels: set<string> :=
    {"รอดำเนินการ", "กำลังดำเนินการ", "รออะไหล่", "เสร็จสิ้น", "ยกเลิก"}

  /** The board's Thai priority labels. */
  const ThaiPriorityLabels: set<string> := {"ต่ำ", "ปานกลาง", "สูง", "เร่งด่วน"}

  /** The enum member a string names, if any. */
  function StatusNamed(name: string): (r: Option<TicketStatus>)
    ensures r.Some? ==> StatusName(r.value) == name
    ensures r.None? ==> forall s :: StatusName(s) != name
  {
    if name == "PENDING" then Some(PENDING)
    else if name == "IN_PROGRESS" then Some(IN_PROGRESS)
    else if name == "WAITING_PARTS" then Some(WAITING_PARTS)
    else if name == "COMPLETED" then Some(COMPLETED)
    else if name == "CANCELLED" then Some(CANCELLED)
    else None
  }

  /** `mapStatusToMonday`: the board label of a status name; any other string gets
      the PENDING label. */
  function MapStatusToMonday(status: string): (boardLabel: string)
    ensures boardLabel in ThaiStatusLabels
    ensures StatusNamed(status).None? ==> boardLabel == "รอดำเนินการ"
    ensures boardLabel == "รอดำเนินการ" <==> status !in {"IN_PROGRESS", "WAITING_PARTS", "COMPLETED", "CANCELLED"}
  {
    if status == "PENDING" then "รอดำเนินการ"
    else if status == "IN_PROGRESS" then "กำลังดำเนินการ"
    else if status == "WAITING_PARTS" then "รออะไหล่"
    else if status == "COMPLETED" then "เสร็จสิ้น"
    else if status == "CANCELLED" then "ยกเลิก"
    else "รอดำเนินการ"
  }

  /** `mapPriorityToMonday`: the board label of a priority; any other string gets
      the MEDIUM label. */
  function MapPriorityToMonday(priority: string): (boardLabel: string)
    ensures boardLabel in ThaiPriorityLabels
    ensures boardLabel == "ปานกลาง" <==> priority !in {"LOW", "HIGH", "URGENT"}
  {
    if priority == "LOW" then "ต่ำ"
    else if priority == "MEDIUM" then "ปานกลาง"
    else if priority == "HIGH" then "สูง"
    else if priority == "URGENT" then "เร่งด่วน"
    else "ปานกลาง"
  }

  /** `mapMondayStatusToPrisma`: the status a board label stands for; an unknown
      label (matched exactly, case-sensitively) gives PENDING. */
  function MapMondayStatusToPrisma(mondayStatus: string): (status: string)
    ensures StatusNamed(status).Some?
    ensures mondayStatus !in ThaiStatusLabels ==> status == "PENDING"
  {
    if mondayStatus == "รอดำเนินการ" then "PENDING"
    else if mondayStatus == "กำลังดำเนินการ" then "IN_PROGRESS"
    else if mondayStatus == "รออะไหล่" then "WAITING_PARTS"
    else if mondayStatus == "เสร็จสิ้น" then "COMPLETED"
    else if mondayStatus == "ยกเลิก" then "CANCELLED"
    else "PENDING"
  }

  /** Sending a status to the board and reading it back gives the same status. */
  lemma StatusRoundTrip(s: TicketStatus)
    ensures MapMondayStatusToPrisma(MapStatusToMonday(StatusName(s))) == StatusName(s)
  {
  }

  /** Reading a board label and sending it back gives the same label. */
  lemma LabelRoundTrip(boardLabel: string)
    requires boardLabel in ThaiStatusLabels
    ensures MapStatusToMonday(MapMondayStatusToPrisma(boardLabel)) == boardLabel
  {
  }

  /** Distinct statuses get distinct board labels. */
  lemma StatusLabelsDistinct(s: TicketStatus, t: TicketStatus)
    requires s != t
    ensures MapStatusToMonday(StatusName(s)) != MapStatusToMonday(StatusName(t))
  {
    StatusRoundTrip(s);
    StatusRoundTrip(t);
  }

  // ---------------------------------------------------------------------------
  // Webhook body

  /** A status column value as the board sends it. */
  datatype ColumnValue = ColumnValue(statusLabel: Option<string>)

  /** `payload.event`, with every field optional. */
  datatype Event = Event(
    pulseId: Option<string>,
    boardId: Option<string>,
    columnId: Option<string>,
    previousValue: Option<ColumnValue>,
    value: Option<ColumnValue>,
    eventType: Option<string>)

  datatype WebhookPayload = WebhookPayload(event: Option<Event>)

  datatype WebhookData = WebhookData(
    itemId: Option<string>,
    boardId: Option<string>,
    columnId: Option<string>,
    previousValue: Option<ColumnValue>,
    value: Option<ColumnValue>,
    eventType: Option<string>)

  /** `parseWebhookPayload`: copies the event's fields (`pulseId` becomes `itemId`,
      `type` becomes `eventType`); without an event every field is undefined. */
  function ParseWebhookPayload(payload: WebhookPayload): (d: WebhookData)
    ensures payload.event.None? ==>
      d == WebhookData(None, None, None, None, None, None)
    ensures payload.event.Some? ==>
      var e := payload.event.value;
      && d.itemId == e.pulseId && d.boardId == e.boardId && d.columnId == e.columnId
      && d.previousValue == e.previousValue && d.value == e.value && d.eventType == e.eventType
  {
    match payload.event
    case None => WebhookData(None, None, None, None, None, None)
    case Some(e) => WebhookData(e.pulseId, e.boardId, e.columnId, e.previousValue, e.value, e.eventType)
  }

  // ---------------------------------------------------------------------------
  // Remote calls (stubs in the source: they only log)

  /** `MONDAY_API_TOKEN` and `MONDAY_BOARD_ID`. */
  datatype MondayConfig = MondayConfig(apiToken: Option<string>, boardId: Option<string>)

  /** What `createTicket` logs. */
  datatype CreateLog = NotConfigured | WouldCreate(ticketNumber: string)

  datatype CreateAttempt = CreateAttempt(itemId: Option<string>, log: CreateLog)

  /** `createTicket`: refuses when the token or the board id is missing, and
      otherwise only logs; no path yields an item id. */
  function CreateTicket(config: MondayConfig, ticketNumber: string): (r: CreateAttempt)
    ensures r.itemId.None?
    ensures r.log.NotConfigured? <==> !Truthy(config.apiToken) || !Truthy(config.boardId)
    ensures r.log.WouldCreate? ==> r.log.ticketNumber == ticketNumber
  {
    if !Truthy(config.apiToken) || !Truthy(config.boardId) then CreateAttempt(None, NotConfigured)
    else CreateAttempt(None, WouldCreate(ticketNumber))
  }

  /** `updateTicketStatus`: fails exactly when the API token is missing. */
  function UpdateTicketStatus(config: MondayConfig, ticketId: string, status: string): (ok: bool)
    ensures ok <==> Truthy(config.apiToken)
  {
    Truthy(config.apiToken)
  }
}
