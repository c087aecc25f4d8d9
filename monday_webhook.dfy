/** The inbound Monday.com webhook: the signature guard, the filter for status-column
    changes, and the status-change handler that updates the matching ticket, records
    the change in its history and notifies the ticket's owner over LINE.

    The handler is specified by `StatusChange`, a function from the tables before the
    request to the tables after it; `HandleStatusChange` performs the same steps one
    database call at a time and is proved to reach that state. */
module MondayWebhook {
  import opened Common
  import opened Store
  import opened MondayService

  // ---------------------------------------------------------------------------
  // Vocabularies of this route

  /** The board's English status label for each status. */
  function EnglishLabel(s: TicketStatus): string {
    match s
    case PENDING => "Pending"
    case IN_PROGRESS => "In Progress"
    case WAITING_PARTS => "Waiting Parts"
    case COMPLETED => "Completed"
    case CANCELLED => "Cancelled"
  }

  /** `mapMondayStatusToTicketStatus`: the status whose English label is exactly the
      given one (case-sensitive); null for anything else, an absent label included. */
  function MapMondayStatusToTicketStatus(boardLabel: Option<string>): (r: Option<TicketStatus>)
    ensures r.Some? ==> boardLabel == Some(EnglishLabel(r.value))
    ensures r.None? <==> boardLabel.None? || forall s :: EnglishLabel(s) != boardLabel.value
  {
    if boardLabel == Some("Pending") then Some(PENDING)
    else if boardLabel == Some("In Progress") then Some(IN_PROGRESS)
    else if boardLabel == Some("Waiting Parts") then Some(WAITING_PARTS)
    else if boardLabel == Some("Completed") then Some(COMPLETED)
    else if boardLabel == Some("Cancelled") then Some(CANCELLED)
    else None
  }

  /** Every status is read back from its own English label; other spellings are not. */
  lemma EnglishLabelRoundTrip(s: TicketStatus)
    ensures MapMondayStatusToTicketStatus(Some(EnglishLabel(s))) == Some(s)
    ensures MapMondayStatusToTicketStatus(Some("completed")).None?
    ensures MapMondayStatusToTicketStatus(Some("เสร็จสิ้น")).None?
  {
    assert EnglishLabel(COMPLETED) != "completed";
  }

  const NonDefaultStatusNames: set<string> := {"IN_PROGRESS", "WAITING_PARTS", "COMPLETED", "CANCELLED"}

  /** `getStatusEmoji` of the webhook routes; the PENDING emoji is the fallback. */
  function StatusEmoji(status: string): (emoji: string)
    ensures emoji == "⏳" <==> status !in NonDefaultStatusNames
  {
    if status == "IN_PROGRESS" then "🔧"
    else if status == "WAITING_PARTS" then "⏱️"
    else if status == "COMPLETED" then "✅"
    else if status == "CANCELLED" then "❌"
    else "⏳"
  }

  /** `getStatusText` of the webhook routes; the PENDING text is the fallback. */
  function StatusText(status: string): (text: string)
    ensures text == "รอดำเนินการ" <==> status !in NonDefaultStatusNames
  {
    if status == "IN_PROGRESS" then "กำลังซ่อม"
    else if status == "WAITING_PARTS" then "รออะไหล่"
    else if status == "COMPLETED" then "ซ่อมเสร็จแล้ว"
    else if status == "CANCELLED" then "ยกเลิก"
    else "รอดำเนินการ"
  }

  /** Distinct statuses are shown with distinct emoji and distinct texts. */
  lemma StatusDisplayDistinct(s: TicketStatus, t: TicketStatus)
    requires s != t
    ensures StatusEmoji(StatusName(s)) != StatusEmoji(StatusName(t))
    ensures StatusText(StatusName(s)) != StatusText(StatusName(t))
  {
  }

  // ---------------------------------------------------------------------------
  // Request guards

  /** `verifyMondaySignature`: with no secret configured every request passes; with a
      secret, a request passes exactly when it carries a non-empty signature header,
      whose value is not compared with anything. */
  function VerifyMondaySignature(secret: Option<string>, signature: Option<string>): (ok: bool)
    ensures ok <==> !Truthy(secret) || Truthy(signature)
  {
    if !Truthy(secret) then true
    else if !Truthy(signature) then false
    else true
  }

  /** The filter in `POST`: only a value change of the column with id "status". */
  predicate IsStatusChangeEvent(data: WebhookData) {
    data.eventType == Some("update_column_value") && data.columnId == Some("status")
  }

  // ---------------------------------------------------------------------------
  // The status change

  const UpdatedFromMonday: string := "Updated from Monday.com"

  /** `webhookData.value?.label` */
  function LabelOf(data: WebhookData): Option<string> {
    if data.value.Some? then data.value.value.statusLabel else None
  }

  /** Whether a ticket is selected by `where: {mondayTicketId: itemId}`. An undefined
      item id leaves the filter empty, so that every ticket is selected. */
  predicate ItemMatches(t: Ticket, itemId: Option<string>) {
    itemId.None? || t.mondayTicketId == itemId
  }

  datatype Plan = Plan(index: nat, newStatus: TicketStatus)

  /** Which ticket changes to which status: the first selected ticket, when the label
      maps to a status other than the ticket's own. */
  function PlannedUpdate(tickets: seq<Ticket>, data: WebhookData): (plan: Option<Plan>)
    ensures plan.Some? ==> && plan.value.index < |tickets|
                           && ItemMatches(tickets[plan.value.index], data.itemId)
                           && (forall k :: 0 <= k < plan.value.index ==> !ItemMatches(tickets[k], data.itemId))
                           && MapMondayStatusToTicketStatus(LabelOf(data)) == Some(plan.value.newStatus)
                           && tickets[plan.value.index].status != plan.value.newStatus
    ensures plan.None? <==> || (forall k :: 0 <= k < |tickets| ==> !ItemMatches(tickets[k], data.itemId))
                            || MapMondayStatusToTicketStatus(LabelOf(data)).None?
                            || (var i := FirstIndex(tickets, (t: Ticket) => ItemMatches(t, data.itemId));
                                i.Some? && Some(tickets[i.value].status) == MapMondayStatusToTicketStatus(LabelOf(data)))
  {
    match FirstIndex(tickets, (t: Ticket) => ItemMatches(t, data.itemId))
    case None => None
    case Some(i) =>
      match MapMondayStatusToTicketStatus(LabelOf(data))
      case None => None
      case Some(s) => if s == tickets[i].status then None else Some(Plan(i, s))
  }

  /** The planned ticket gets the new status; every other ticket, and every other
      field of that one, stays. */
  function ApplyPlan(tickets: seq<Ticket>, p: Plan): (r: seq<Ticket>)
    requires p.index < |tickets|
    ensures |r| == |tickets| && r[p.index].status == p.newStatus
    ensures r[p.index].(status := tickets[p.index].status) == tickets[p.index]
    ensures forall k :: 0 <= k < |tickets| && k != p.index ==> r[k] == tickets[k]
  {
    tickets[p.index := tickets[p.index].(status := p.newStatus)]
  }

  /** The notification the owner of the changed ticket receives. */
  function Notice(t: Tables, ticket: Ticket, newStatus: TicketStatus): Message {
    StatusChangeNotice(ticket.ticketNumber, ticket.title, newStatus,
                       DeviceInfo(t.companies, t.brands, t.models, t.devices, ticket.deviceId))
  }

  /** `handleStatusChange` as a function of the tables. Its result is false when the
      LINE push throws, after the ticket and its history have been written. */
  function StatusChange(t: Tables, data: WebhookData, pushOk: bool): (r: Outcome<bool>)
    ensures PlannedUpdate(t.tickets, data).None? ==> r.after == t && r.result
    ensures PlannedUpdate(t.tickets, data).Some? ==>
      var p := PlannedUpdate(t.tickets, data).value;
      var ticket := t.tickets[p.index];
      && r.after.tickets == ApplyPlan(t.tickets, p)
      && r.after.history == t.history + [HistoryEntry(ticket.id, Some(ticket.status), p.newStatus, UpdatedFromMonday)]
      && var owner := OwnerLineId(t.users, ticket.userId);
      && r.after.outbox == (if owner.Some? && pushOk then t.outbox + [Push(owner.value, Notice(t, ticket, p.newStatus))] else t.outbox)
      && (r.result <==> owner.None? || pushOk)
    ensures r.after == t.(tickets := r.after.tickets, history := r.after.history, outbox := r.after.outbox)
  {
    match PlannedUpdate(t.tickets, data)
    case None => Outcome(t, true)
    case Some(p) =>
      var ticket := t.tickets[p.index];
      var updated := t.(tickets := ApplyPlan(t.tickets, p),
                        history := t.history + [HistoryEntry(ticket.id, Some(ticket.status), p.newStatus, UpdatedFromMonday)]);
      match OwnerLineId(t.users, ticket.userId)
      case None => Outcome(updated, true)
      case Some(to) =>
        if pushOk then Outcome(updated.(outbox := t.outbox + [Push(to, Notice(t, ticket, p.newStatus))]), true)
        else Outcome(updated, false)
  }

  /** A status change keeps the tables consistent. */
  lemma StatusChangeKeepsConsistent(t: Tables, data: WebhookData, pushOk: bool)
    requires Consistent(t)
    ensures Consistent(StatusChange(t, data, pushOk).after)
  {
    var a := StatusChange(t, data, pushOk).after;
    assert |a.tickets| == |t.tickets|;
    assert forall i :: 0 <= i < |a.tickets| ==> a.tickets[i].id == t.tickets[i].id && a.tickets[i].createdAt == t.tickets[i].createdAt;
    RetouchTicketsKeepsConsistent(t, a);
  }

  /** Delivering the same event twice changes nothing the second time. */
  lemma RepeatedEventChangesNothing(t: Tables, data: WebhookData, pushOk: bool, pushOk2: bool)
    ensures var a := StatusChange(t, data, pushOk).after;
            StatusChange(a, data, pushOk2).after == a
  {
    var a := StatusChange(t, data, pushOk).after;
    match PlannedUpdate(t.tickets, data)
    case None =>
    case Some(p) =>
      assert forall k :: 0 <= k < |a.tickets| ==> (ItemMatches(a.tickets[k], data.itemId) <==> ItemMatches(t.tickets[k], data.itemId));
      var i := FirstIndex(a.tickets, (x: Ticket) => ItemMatches(x, data.itemId));
      assert i == Some(p.index);
      assert a.tickets[p.index].status == p.newStatus;
  }

  /** Only the first selected ticket can change; every other ticket keeps its row. */
  lemma OnlyFirstMatchChanges(t: Tables, data: WebhookData, pushOk: bool, k: nat)
    requires k < |t.tickets|
    requires k != (var i := FirstIndex(t.tickets, (x: Ticket) => ItemMatches(x, data.itemId)); if i.Some? then i.value else |t.tickets|)
    ensures StatusChange(t, data, pushOk).after.tickets[k] == t.tickets[k]
  {
  }

  /** `handleStatusChange`, one database call at a time. */
  method HandleStatusChange(db: Database, data: WebhookData, pushOk: bool) returns (ok: bool)
    requires db.Valid()
    modifies db
    ensures db.Valid()
    ensures Outcome(db.Snapshot(), ok) == StatusChange(old(db.Snapshot()), data, pushOk)
  {
    var tickets := db.tickets;
    var found := FirstIndex(tickets, (x: Ticket) => ItemMatches(x, data.itemId));
    if found.None? {
      return true;
    }
    var ticket := tickets[found.value];
    var newStatus := MapMondayStatusToTicketStatus(LabelOf(data));
    if newStatus.None? || newStatus.value == ticket.status {
      return true;
    }
    db.SetTicketStatus(found.value, newStatus.value);
    db.AppendHistory(HistoryEntry(ticket.id, Some(ticket.status), newStatus.value, UpdatedFromMonday));
    var owner := OwnerLineId(db.users, ticket.userId);
    ok := true;
    if owner.Some? {
      if pushOk {
        var deviceInfo := DeviceInfo(db.companies, db.brands, db.models, db.devices, ticket.deviceId);
        db.Send(owner.value, StatusChangeNotice(ticket.ticketNumber, ticket.title, newStatus.value, deviceInfo));
      } else {
        ok := false;
      }
    }
  }

  /** `POST`: the response status of the webhook and the tables after it. */
  function PostOutcome(t: Tables, secret: Option<string>, signature: Option<string>,
                       payload: WebhookPayload, pushOk: bool): (r: Outcome<nat>)
    ensures r.result == 401 <==> !VerifyMondaySignature(secret, signature)
    ensures r.result in {200, 401, 500}
    ensures r.result == 401 || !IsStatusChangeEvent(ParseWebhookPayload(payload)) ==> r.after == t
    ensures r.result == 500 ==> r.after == StatusChange(t, ParseWebhookPayload(payload), pushOk).after
    ensures VerifyMondaySignature(secret, signature) && IsStatusChangeEvent(ParseWebhookPayload(payload)) ==>
      var handled := StatusChange(t, ParseWebhookPayload(payload), pushOk);
      r.after == handled.after && (r.result == 200 <==> handled.result)
    ensures r.after != t ==> r.result != 401 && IsStatusChangeEvent(ParseWebhookPayload(payload))
  {
    if !VerifyMondaySignature(secret, signature) then Outcome(t, 401)
    else
      var data := ParseWebhookPayload(payload);
      if !IsStatusChangeEvent(data) then Outcome(t, 200)
      else
        var handled := StatusChange(t, data, pushOk);
        Outcome(handled.after, if handled.result then 200 else 500)
  }

  /** The webhook endpoint. */
  method Post(db: Database, secret: Option<string>, signature: Option<string>,
              payload: WebhookPayload, pushOk: bool) returns (code: nat)
    requires db.Valid()
    modifies db
    ensures db.Valid()
    ensures Outcome(db.Snapshot(), code) == PostOutcome(old(db.Snapshot()), secret, signature, payload, pushOk)
  {
    if !VerifyMondaySignature(secret, signature) {
      return 401;
    }
    var data := ParseWebhookPayload(payload);
    code := 200;
    if IsStatusChangeEvent(data) {
      var ok := HandleStatusChange(db, data, pushOk);
      if !ok {
        code := 500;
      }
    }
  }
}
