/** `/api/webhooks/google-forms`: a repair request submitted through a Google Form.
    The submitter's account is found or created by e-mail, a per-user placeholder
    device is found or created under a fixed company, brand and model, and a PENDING
    ticket is opened with a count-based number, its first history entry, a LINE
    notification to a linked submitter, and a Monday.com item when one is made. */
module GoogleForms {
  import opened Common
  import opened Store
  import LineNotifications
  import MondayService

  /** The JSON body of the form's webhook. */
  datatype FormData = FormData(
    timestamp: string,
    email: Option<string>,
    name: Option<string>,
    title: Option<string>,
    description: Option<string>,
    priority: Option<string>,
    deviceInfo: Option<string>,
    images: Option<seq<string>>,
    phone: Option<string>)

  /** The success answer: the new ticket's id and number. */
  datatype Submitted = Submitted(ticketId: nat, ticketNumber: string)

  const FormsCompany: string := "Google Forms"
  const FormsBrand: string := "General"
  const FormsModel: string := "Google Form Submission"
  const SerialPrefix: string := "GOOGLE_FORM_"
  const FormsNote: string := "สร้างรายการแจ้งซ่อมจาก Google Forms"

  // ---------------------------------------------------------------------------
  // Numbers and names

  /** A number padded with zeros to six places still reads as that number, and is
      exactly six characters wide while it is below a million. */
  lemma PaddedNumber(n: nat)
    ensures AllDigits(PadStart(NatToString(n), 6, '0'))
    ensures ParseDigits(PadStart(NatToString(n), 6, '0')) == n
    ensures n < Pow10(6) ==> |PadStart(NatToString(n), 6, '0')| == 6
  {
    var digits := NatToString(n);
    var padded := PadStart(digits, 6, '0');
    assert padded == Repeat('0', |padded| - |digits|) + digits;
    ParseDigitsLeadingZeros(|padded| - |digits|, digits);
    if n < Pow10(6) {
      NatToStringWidth(n, 6);
    }
  }

  /** `TK` and the ticket count plus one, zero-padded to six digits. */
  function TicketNumber(count: nat): (n: string)
    ensures "TK" <= n && AllDigits(n[2..]) && ParseDigits(n[2..]) == count + 1
    ensures count + 1 < Pow10(6) ==> |n| == 8
  {
    var padded := PadStart(NatToString(count + 1), 6, '0');
    PaddedNumber(count + 1);
    Prefixed("TK", padded);
    "TK" + padded
  }

  /** What follows a prefix is what was appended to it. */
  lemma Prefixed(prefix: string, s: string)
    ensures prefix <= prefix + s && (prefix + s)[|prefix|..] == s && |prefix + s| == |prefix| + |s|
  {
  }

  /** Different counts give different ticket numbers. */
  lemma TicketNumberInjective(a: nat, b: nat)
    requires TicketNumber(a) == TicketNumber(b)
    ensures a == b
  {
    assert ParseDigits(TicketNumber(a)[2..]) == ParseDigits(TicketNumber(b)[2..]);
  }

  /** The serial number of a user's placeholder device. */
  function DeviceSerial(userId: nat): (s: string)
    ensures SerialPrefix <= s && AllDigits(s[|SerialPrefix|..]) && ParseDigits(s[|SerialPrefix|..]) == userId
  {
    Prefixed(SerialPrefix, NatToString(userId));
    SerialPrefix + NatToString(userId)
  }

  /** Different users get different placeholder devices. */
  lemma DeviceSerialInjective(a: nat, b: nat)
    requires DeviceSerial(a) == DeviceSerial(b)
    ensures a == b
  {
    assert ParseDigits(DeviceSerial(a)[|SerialPrefix|..]) == ParseDigits(DeviceSerial(b)[|SerialPrefix|..]);
  }

  /** The stored description: the submitted text, the device details or "ไม่ระบุ"
      (not specified), and the submission time. */
  function ComposeDescription(description: string, deviceInfo: Option<string>, timestamp: string): (d: string)
    ensures description <= d
    ensures Contains(d, "\n\nอุปกรณ์: " + OrElse(deviceInfo, "ไม่ระบุ"))
  {
    var device := "\n\nอุปกรณ์: " + OrElse(deviceInfo, "ไม่ระบุ");
    var d := description + device + "\n\nส่งผ่าน Google Forms เมื่อ: " + timestamp;
    assert d[|description|..|description| + |device|] == device;
    ContainsIff(d, device, |description|);
    d
  }

  // ---------------------------------------------------------------------------
  // Find or create

  /** The submitter's account: the one with that e-mail, or a new USER account with
      the submitted name and a phone only when it is truthy. */
  function FindOrCreateUser(t: Tables, email: string, name: Option<string>, phone: Option<string>): (r: Outcome<User>)
    ensures r.result.email == email
    ensures UserWithEmail(t.users, email).Some? ==> r == Outcome(t, t.users[UserWithEmail(t.users, email).value])
    ensures UserWithEmail(t.users, email).None? ==>
      && r.result == User(t.nextId, email, name, None, if Truthy(phone) then phone else None, None, None, "USER")
      && r.after == t.(users := t.users + [r.result], nextId := t.nextId + 1)
    ensures UserWithEmail(r.after.users, email).Some? && r.after.users[UserWithEmail(r.after.users, email).value] == r.result
  {
    match UserWithEmail(t.users, email)
    case Some(i) => Outcome(t, t.users[i])
    case None =>
      var u := User(t.nextId, email, name, None, if Truthy(phone) then phone else None, None, None, "USER");
      assert (t.users + [u])[|t.users|] == u;
      Outcome(t.(users := t.users + [u], nextId := t.nextId + 1), u)
  }

  function CompanyNamed(companies: seq<Company>, name: string): Option<nat> {
    FirstIndex(companies, (c: Company) => c.name == name)
  }

  function BrandNamed(brands: seq<Brand>, name: string, companyId: nat): Option<nat> {
    FirstIndex(brands, (b: Brand) => b.name == name && b.companyId == companyId)
  }

  function ModelNamed(models: seq<DeviceModel>, name: string, brandId: nat): Option<nat> {
    FirstIndex(models, (m: DeviceModel) => m.name == name && m.brandId == brandId)
  }

  function DeviceWithSerial(devices: seq<Device>, serialNumber: string): Option<nat> {
    FirstIndex(devices, (d: Device) => d.serialNumber == serialNumber)
  }

  /** The "Google Forms" company, created when missing. */
  function FindOrCreateCompany(t: Tables): (r: Outcome<Company>)
    ensures r.result.name == FormsCompany
    ensures r.after == t || r.after == t.(companies := t.companies + [r.result], nextId := t.nextId + 1)
    ensures r.after == t ==> CompanyNamed(t.companies, FormsCompany).Some?
    ensures r.after != t ==> r.result.id == t.nextId
    ensures exists k :: 0 <= k < |r.after.companies| && r.after.companies[k] == r.result
  {
    match CompanyNamed(t.companies, FormsCompany)
    case Some(i) => Outcome(t, t.companies[i])
    case None =>
      var c := Company(t.nextId, FormsCompany);
      assert (t.companies + [c])[|t.companies|] == c;
      Outcome(t.(companies := t.companies + [c], nextId := t.nextId + 1), c)
  }

  /** The "General" brand of `company`, created when missing. */
  function FindOrCreateBrand(t: Tables, company: Company): (r: Outcome<Brand>)
    ensures r.result.name == FormsBrand && r.result.companyId == company.id
    ensures r.after == t || r.after == t.(brands := t.brands + [r.result], nextId := t.nextId + 1)
    ensures r.after != t ==> r.result.id == t.nextId
    ensures exists k :: 0 <= k < |r.after.brands| && r.after.brands[k] == r.result
  {
    match BrandNamed(t.brands, FormsBrand, company.id)
    case Some(i) => Outcome(t, t.brands[i])
    case None =>
      var b := Brand(t.nextId, FormsBrand, company.id);
      assert (t.brands + [b])[|t.brands|] == b;
      Outcome(t.(brands := t.brands + [b], nextId := t.nextId + 1), b)
  }

  /** The "Google Form Submission" model of `brand`, created when missing. */
  function FindOrCreateModel(t: Tables, brand: Brand): (r: Outcome<DeviceModel>)
    ensures r.result.name == FormsModel && r.result.brandId == brand.id
    ensures r.after == t || r.after == t.(models := t.models + [r.result], nextId := t.nextId + 1)
    ensures r.after != t ==> r.result.id == t.nextId
    ensures exists k :: 0 <= k < |r.after.models| && r.after.models[k] == r.result
  {
    match ModelNamed(t.models, FormsModel, brand.id)
    case Some(i) => Outcome(t, t.models[i])
    case None =>
      var m := DeviceModel(t.nextId, FormsModel, brand.id);
      assert (t.models + [m])[|t.models|] == m;
      Outcome(t.(models := t.models + [m], nextId := t.nextId + 1), m)
  }

  /** The placeholder device of user `userId`: found by serial number, or created
      under the find-or-create chain company, brand, model. Only catalog tables and
      the id counter can change. */
  function FindOrCreateDevice(t: Tables, userId: nat): (r: Outcome<Device>)
    ensures r.result.serialNumber == DeviceSerial(userId)
    ensures DeviceWithSerial(r.after.devices, DeviceSerial(userId)).Some?
    ensures r.after.devices[DeviceWithSerial(r.after.devices, DeviceSerial(userId)).value] == r.result
    ensures DeviceWithSerial(t.devices, DeviceSerial(userId)).Some? ==> r.after == t
    ensures r.after == t.(companies := r.after.companies, brands := r.after.brands, models := r.after.models,
                          devices := r.after.devices, nextId := r.after.nextId)
    ensures t.nextId <= r.after.nextId
  {
    var serial := DeviceSerial(userId);
    match DeviceWithSerial(t.devices, serial)
    case Some(i) => Outcome(t, t.devices[i])
    case None =>
      var c := FindOrCreateCompany(t);
      var b := FindOrCreateBrand(c.after, c.result);
      var m := FindOrCreateModel(b.after, b.result);
      var t3 := m.after;
      var d := Device(t3.nextId, serial, m.result.id);
      assert (t3.devices + [d])[|t3.devices|] == d;
      Outcome(t3.(devices := t3.devices + [d], nextId := t3.nextId + 1), d)
  }

  // ---------------------------------------------------------------------------
  // The request

  /** The details the LINE notification carries. */
  function InfoOf(ticket: Ticket): LineNotifications.TicketInfo {
    LineNotifications.TicketInfo(ticket.ticketNumber, ticket.title, "PENDING", Some(ticket.description), Some(ticket.priority))
  }

  /** The ticket before the database assigns its id and creation time. */
  function Draft(ticketCount: nat, data: FormData, userId: nat, deviceId: nat): (x: Ticket)
    requires Truthy(data.title) && Truthy(data.description)
    ensures x.status == PENDING && x.mondayTicketId.None?
    ensures x.priority == OrElse(data.priority, "MEDIUM")
    ensures x.ticketNumber == TicketNumber(ticketCount)
    ensures x.title == data.title.value
    ensures x.description == ComposeDescription(data.description.value, data.deviceInfo, data.timestamp)
    ensures x.images == (if data.images.Some? then data.images.value else [])
    ensures x.userId == userId && x.deviceId == deviceId
  {
    Ticket(0, TicketNumber(ticketCount), data.title.value,
           ComposeDescription(data.description.value, data.deviceInfo, data.timestamp),
           PENDING, OrElse(data.priority, "MEDIUM"), userId, deviceId,
           data.images.GetOr([]), None, 0)
  }

  /** The ticket's side effects after it is stored: the first history entry, the LINE
      push to a linked submitter when it is delivered (`Notify`, whose outcome
      `AfterCreateNotifies` states), and the Monday.com item id written back when one
      came back. */
  function AfterCreate(t: Tables, ticket: Ticket, owner: User, accessToken: Option<string>, timeText: string,
                       pushOk: bool, mondayItemId: Option<string>): (r: Tables)
    requires |t.tickets| > 0
    ensures r == t.(tickets := r.tickets, history := r.history, outbox := r.outbox)
    ensures r.history == t.history + [HistoryEntry(ticket.id, None, PENDING, FormsNote)]
    ensures |r.tickets| == |t.tickets| && r.tickets[..|t.tickets| - 1] == t.tickets[..|t.tickets| - 1]
    ensures r.tickets[|t.tickets| - 1] ==
      if Truthy(mondayItemId) then t.tickets[|t.tickets| - 1].(mondayTicketId := mondayItemId) else t.tickets[|t.tickets| - 1]
  {
    var t1 := t.(history := t.history + [HistoryEntry(ticket.id, None, PENDING, FormsNote)]);
    Writeback(Notify(t1, ticket, owner, accessToken, timeText, pushOk), mondayItemId)
  }

  /** The Monday.com item id, when one came back, recorded on the newest ticket. */
  function Writeback(t: Tables, mondayItemId: Option<string>): (r: Tables)
    requires |t.tickets| > 0
    ensures r == t.(tickets := r.tickets)
  {
    if Truthy(mondayItemId)
    then t.(tickets := t.tickets[|t.tickets| - 1 := t.tickets[|t.tickets| - 1].(mondayTicketId := mondayItemId)])
    else t
  }

  /** The LINE push to the submitter: recorded in the outbox when it is delivered. */
  function Notify(t: Tables, ticket: Ticket, owner: User, accessToken: Option<string>, timeText: string,
                  pushOk: bool): (r: Tables)
    ensures r == t.(outbox := r.outbox)
  {
    var delivery := if Truthy(owner.lineUserId)
                    then LineNotifications.SendRepairTicketNotification(accessToken, owner.lineUserId.value, InfoOf(ticket), timeText, pushOk)
                    else LineNotifications.NotAttempted;
    if LineNotifications.Delivered(delivery)
    then t.(outbox := t.outbox + [Push(owner.lineUserId.value, Text(LineNotifications.RepairMessage(InfoOf(ticket), timeText)))])
    else t
  }

  /** A LINE notice goes out exactly for a truthy, well-formed LINE id with a token
      and a push that goes through, and it carries the repair message. */
  lemma AfterCreateNotifies(t: Tables, ticket: Ticket, owner: User, accessToken: Option<string>, timeText: string,
                            pushOk: bool, mondayItemId: Option<string>)
    requires |t.tickets| > 0
    ensures var r := AfterCreate(t, ticket, owner, accessToken, timeText, pushOk, mondayItemId);
      && (r.outbox != t.outbox <==>
           && Truthy(owner.lineUserId) && Truthy(accessToken) && pushOk
           && LineNotifications.IsValidLineUserId(owner.lineUserId.value))
      && (r.outbox != t.outbox ==>
           r.outbox == t.outbox + [Push(owner.lineUserId.value, Text(LineNotifications.RepairMessage(InfoOf(ticket), timeText)))])
  {
    var t1 := t.(history := t.history + [HistoryEntry(ticket.id, None, PENDING, FormsNote)]);
    assert AfterCreate(t, ticket, owner, accessToken, timeText, pushOk, mondayItemId).outbox
        == Notify(t1, ticket, owner, accessToken, timeText, pushOk).outbox;
  }

  /** POST. 400 unless e-mail, title and description are truthy. Otherwise the
      account and the device are found or created; a priority outside the enum then
      makes the ticket insert throw (500), leaving the account and device behind.
      Otherwise the ticket is stored, with the side effects of `AfterCreate`.
      `accessToken`, `timeText`, `pushOk` and `mondayItemId` stand for the
      environment, the clock, the LINE response and what Monday.com returned. */
  function Submit(t: Tables, data: FormData, accessToken: Option<string>, timeText: string,
                  pushOk: bool, mondayItemId: Option<string>): (r: Outcome<Response<Submitted>>)
    ensures r.result == Fail(400) <==> !Truthy(data.email) || !Truthy(data.title) || !Truthy(data.description)
    ensures r.result == Fail(400) ==> r.after == t
    ensures r.result.Ok? ==>
      && |r.after.tickets| == |t.tickets| + 1
      && r.result.body.ticketNumber == TicketNumber(|r.after.tickets| - 1)
      && r.after.tickets[|t.tickets|].ticketNumber == r.result.body.ticketNumber
      && r.after.tickets[|t.tickets|].id == r.result.body.ticketId
      && r.after.tickets[|t.tickets|].status == PENDING
      && r.after.tickets[|t.tickets|].priority == OrElse(data.priority, "MEDIUM")
      && r.after.tickets[|t.tickets|].mondayTicketId == (if Truthy(mondayItemId) then mondayItemId else None)
      && r.after.history == t.history + [HistoryEntry(r.result.body.ticketId, None, PENDING, FormsNote)]
    ensures r.result.Ok? ==>
      && var x := r.after.tickets[|t.tickets|];
      && x.title == data.title.value
      && x.description == ComposeDescription(data.description.value, data.deviceInfo, data.timestamp)
      && x.images == (if data.images.Some? then data.images.value else [])
      && UserWithEmail(r.after.users, data.email.value).Some?
      && x.userId == r.after.users[UserWithEmail(r.after.users, data.email.value).value].id
      && DeviceWithSerial(r.after.devices, DeviceSerial(x.userId)).Some?
      && x.deviceId == r.after.devices[DeviceWithSerial(r.after.devices, DeviceSerial(x.userId)).value].id
    ensures r.result.Fail? ==> r.result.status == 400 || r.result.status == 500
    ensures r.result == Fail(500) <==>
      Truthy(data.email) && Truthy(data.title) && Truthy(data.description) && OrElse(data.priority, "MEDIUM") !in Priorities
  {
    if !Truthy(data.email) || !Truthy(data.title) || !Truthy(data.description) then Outcome(t, Fail(400))
    else
      var u := FindOrCreateUser(t, data.email.value, data.name, data.phone);
      var d := FindOrCreateDevice(u.after, u.result.id);
      var x := Draft(|d.after.tickets|, data, u.result.id, d.result.id);
      if x.priority in Priorities then
        OpenStores(d.after, x, u.result, accessToken, timeText, pushOk, mondayItemId);
        Open(d.after, x, u.result, accessToken, timeText, pushOk, mondayItemId)
      else
        Open(d.after, x, u.result, accessToken, timeText, pushOk, mondayItemId)
  }

  /** Storing the drafted ticket: the insert throws on a priority outside the enum
      (500); otherwise the ticket gets the next id and the current time, followed by
      the side effects of `AfterCreate`. */
  function Open(t: Tables, x: Ticket, owner: User, accessToken: Option<string>, timeText: string,
                pushOk: bool, mondayItemId: Option<string>): (r: Outcome<Response<Submitted>>)
    ensures r.result == Fail(500) <==> x.priority !in Priorities
    ensures r.result.Fail? ==> r.after == t
    ensures r.after == t.(tickets := r.after.tickets, history := r.after.history, outbox := r.after.outbox,
                          nextId := r.after.nextId, clock := r.after.clock)
  {
    if x.priority !in Priorities then Outcome(t, Fail(500))
    else
      var ticket := x.(id := t.nextId, createdAt := t.clock);
      var t2 := t.(tickets := t.tickets + [ticket], nextId := t.nextId + 1, clock := t.clock + 1);
      Outcome(AfterCreate(t2, ticket, owner, accessToken, timeText, pushOk, mondayItemId),
              Ok(Submitted(ticket.id, ticket.ticketNumber)))
  }
  /** A stored ticket is the drafted one under the next id and the current time, with
      the Monday.com item id when one came back; the answer names it, and one history
      entry records it. */
  lemma OpenStores(t: Tables, x: Ticket, owner: User, accessToken: Option<string>, timeText: string,
                   pushOk: bool, mondayItemId: Option<string>)
    requires x.priority in Priorities
    ensures var r := Open(t, x, owner, accessToken, timeText, pushOk, mondayItemId);
      && r.result.Ok?
      && |r.after.tickets| == |t.tickets| + 1
      && r.after.tickets[|t.tickets|] == x.(id := t.nextId, createdAt := t.clock,
                                             mondayTicketId := if Truthy(mondayItemId) then mondayItemId else x.mondayTicketId)
      && r.result.body == Submitted(t.nextId, x.ticketNumber)
      && r.after.history == t.history + [HistoryEntry(t.nextId, None, PENDING, FormsNote)]
  {
    var ticket := x.(id := t.nextId, createdAt := t.clock);
    var t2 := t.(tickets := t.tickets + [ticket], nextId := t.nextId + 1, clock := t.clock + 1);
    assert Open(t, x, owner, accessToken, timeText, pushOk, mondayItemId).after
        == AfterCreate(t2, ticket, owner, accessToken, timeText, pushOk, mondayItemId);
  }


  // ---------------------------------------------------------------------------
  // Properties

  lemma FindOrCreateUserKeepsConsistent(t: Tables, email: string, name: Option<string>, phone: Option<string>)
    requires Consistent(t)
    ensures Consistent(FindOrCreateUser(t, email, name, phone).after)
  {
    if UserWithEmail(t.users, email).None? {
      AddUserKeepsConsistent(t, User(0, email, name, None, if Truthy(phone) then phone else None, None, None, "USER"));
    }
  }

  lemma FindOrCreateCompanyKeepsConsistent(t: Tables)
    requires Consistent(t)
    ensures Consistent(FindOrCreateCompany(t).after)
  {
  }

  lemma FindOrCreateBrandKeepsConsistent(t: Tables, company: Company)
    requires Consistent(t)
    ensures Consistent(FindOrCreateBrand(t, company).after)
  {
  }

  lemma FindOrCreateModelKeepsConsistent(t: Tables, brand: Brand)
    requires Consistent(t)
    ensures Consistent(FindOrCreateModel(t, brand).after)
  {
  }

  lemma FindOrCreateDeviceKeepsConsistent(t: Tables, userId: nat)
    requires Consistent(t)
    ensures Consistent(FindOrCreateDevice(t, userId).after)
  {
    if DeviceWithSerial(t.devices, DeviceSerial(userId)).None? {
      var c := FindOrCreateCompany(t);
      FindOrCreateCompanyKeepsConsistent(t);
      var b := FindOrCreateBrand(c.after, c.result);
      FindOrCreateBrandKeepsConsistent(c.after, c.result);
      var m := FindOrCreateModel(b.after, b.result);
      FindOrCreateModelKeepsConsistent(b.after, b.result);
      var t3 := m.after;
      var d := Device(t3.nextId, DeviceSerial(userId), m.result.id);
      AddDeviceKeepsConsistent(t3, d);
      assert FindOrCreateDevice(t, userId).after == t3.(devices := t3.devices + [d], nextId := t3.nextId + 1);
    }
  }

  /** Storing a ticket and its side effects keeps the tables consistent: the ticket
      is the newest, and the Monday.com write-back touches neither its id nor its
      creation time. */
  lemma OpenKeepsConsistent(t: Tables, x: Ticket, owner: User, accessToken: Option<string>, timeText: string,
                            pushOk: bool, mondayItemId: Option<string>)
    requires Consistent(t)
    ensures Consistent(Open(t, x, owner, accessToken, timeText, pushOk, mondayItemId).after)
  {
    var r := Open(t, x, owner, accessToken, timeText, pushOk, mondayItemId);
    if r.result.Ok? {
      var ticket := x.(id := t.nextId, createdAt := t.clock);
      var t2 := t.(tickets := t.tickets + [ticket], nextId := t.nextId + 1, clock := t.clock + 1);
      AddTicketKeepsConsistent(t, ticket);
      var a := AfterCreate(t2, ticket, owner, accessToken, timeText, pushOk, mondayItemId);
      assert r.after == a;
      AfterCreateKeepsConsistent(t2, ticket, owner, accessToken, timeText, pushOk, mondayItemId);
    }
  }

  /** The side effects of a stored ticket keep the tables consistent. */
  lemma AfterCreateKeepsConsistent(t: Tables, ticket: Ticket, owner: User, accessToken: Option<string>, timeText: string,
                                   pushOk: bool, mondayItemId: Option<string>)
    requires Consistent(t) && |t.tickets| > 0
    ensures Consistent(AfterCreate(t, ticket, owner, accessToken, timeText, pushOk, mondayItemId))
  {
    var a := AfterCreate(t, ticket, owner, accessToken, timeText, pushOk, mondayItemId);
    var n := |t.tickets| - 1;
    forall k | 0 <= k < |t.tickets|
      ensures a.tickets[k].id == t.tickets[k].id && a.tickets[k].createdAt == t.tickets[k].createdAt
    {
      if k < n {
        assert a.tickets[k] == a.tickets[..n][k];
      }
    }
    RetouchTicketsKeepsConsistent(t, a);
  }

  /** A submission keeps the tables consistent. */
  lemma SubmitKeepsConsistent(t: Tables, data: FormData, accessToken: Option<string>, timeText: string,
                              pushOk: bool, mondayItemId: Option<string>)
    requires Consistent(t)
    ensures Consistent(Submit(t, data, accessToken, timeText, pushOk, mondayItemId).after)
  {
    if Truthy(data.email) && Truthy(data.title) && Truthy(data.description) {
      var u := FindOrCreateUser(t, data.email.value, data.name, data.phone);
      FindOrCreateUserKeepsConsistent(t, data.email.value, data.name, data.phone);
      var d := FindOrCreateDevice(u.after, u.result.id);
      FindOrCreateDeviceKeepsConsistent(u.after, u.result.id);
      OpenKeepsConsistent(d.after, Draft(|d.after.tickets|, data, u.result.id, d.result.id), u.result,
                          accessToken, timeText, pushOk, mondayItemId);
    }
  }

  /** After a successful submission, the submitter's account is the one found by
      e-mail, and its placeholder device is found by serial number. */
  lemma SubmissionLeavesAccountAndDevice(t: Tables, data: FormData, accessToken: Option<string>, timeText: string,
                                         pushOk: bool, mondayItemId: Option<string>)
    requires Submit(t, data, accessToken, timeText, pushOk, mondayItemId).result.Ok?
    ensures var a := Submit(t, data, accessToken, timeText, pushOk, mondayItemId).after;
            && UserWithEmail(a.users, data.email.value).Some?
            && DeviceWithSerial(a.devices, DeviceSerial(a.users[UserWithEmail(a.users, data.email.value).value].id)).Some?
  {
    var u := FindOrCreateUser(t, data.email.value, data.name, data.phone);
    var d := FindOrCreateDevice(u.after, u.result.id);
    var o := Open(d.after, Draft(|d.after.tickets|, data, u.result.id, d.result.id), u.result, accessToken, timeText, pushOk, mondayItemId);
    assert o.after.users == u.after.users && o.after.devices == d.after.devices;
  }

  /** A submission whose account and placeholder device already exist adds no
      account, no device and no catalog rows. */
  lemma KnownSubmitterAddsNoRows(t: Tables, data: FormData, accessToken: Option<string>, timeText: string,
                                 pushOk: bool, mondayItemId: Option<string>)
    requires Truthy(data.email) && UserWithEmail(t.users, data.email.value).Some?
    requires DeviceWithSerial(t.devices, DeviceSerial(t.users[UserWithEmail(t.users, data.email.value).value].id)).Some?
    ensures var a := Submit(t, data, accessToken, timeText, pushOk, mondayItemId).after;
            && a.users == t.users && a.devices == t.devices
            && a.companies == t.companies && a.brands == t.brands && a.models == t.models
  {
    if Truthy(data.title) && Truthy(data.description) {
      var u := FindOrCreateUser(t, data.email.value, data.name, data.phone);
      assert u.after == t;
      var d := FindOrCreateDevice(t, u.result.id);
      assert d.after == t;
    }
  }

  /** A second submission from the same e-mail creates no account, no device and no
      catalog rows: it finds the account and the placeholder device the first one
      left behind. */
  lemma RepeatSubmissionReusesAccountAndDevice(t: Tables, data: FormData, data2: FormData,
                                               accessToken: Option<string>, timeText: string, pushOk: bool,
                                               mondayItemId: Option<string>, pushOk2: bool, mondayItemId2: Option<string>)
    requires Submit(t, data, accessToken, timeText, pushOk, mondayItemId).result.Ok?
    requires data2.email == data.email
    ensures var a1 := Submit(t, data, accessToken, timeText, pushOk, mondayItemId).after;
            var a2 := Submit(a1, data2, accessToken, timeText, pushOk2, mondayItemId2).after;
            && a2.users == a1.users && a2.devices == a1.devices
            && a2.companies == a1.companies && a2.brands == a1.brands && a2.models == a1.models
  {
    var a1 := Submit(t, data, accessToken, timeText, pushOk, mondayItemId).after;
    SubmissionLeavesAccountAndDevice(t, data, accessToken, timeText, pushOk, mondayItemId);
    KnownSubmitterAddsNoRows(a1, data2, accessToken, timeText, pushOk2, mondayItemId2);
  }

  /** With the current Monday.com client, which never returns an item id, the new
      ticket is left without a Monday.com id. */
  lemma CurrentMondayClientLeavesNoItemId(t: Tables, data: FormData, accessToken: Option<string>, timeText: string,
                                          pushOk: bool, config: MondayService.MondayConfig)
    requires Submit(t, data, accessToken, timeText, pushOk,
                    MondayService.CreateTicket(config, TicketNumber(|t.tickets|)).itemId).result.Ok?
    ensures var r := Submit(t, data, accessToken, timeText, pushOk,
                            MondayService.CreateTicket(config, TicketNumber(|t.tickets|)).itemId);
            r.after.tickets[|t.tickets|].mondayTicketId.None?
  {
  }

  // ---------------------------------------------------------------------------
  // Against the database

  method FindOrCreateUserIn(db: Database, email: string, name: Option<string>, phone: Option<string>) returns (u: User)
    requires db.Valid()
    modifies db
    ensures db.Valid()
    ensures Outcome(db.Snapshot(), u) == FindOrCreateUser(old(db.Snapshot()), email, name, phone)
  {
    var found := UserWithEmail(db.users, email);
    if found.Some? {
      return db.users[found.value];
    }
    u := db.InsertUser(User(0, email, name, None, if Truthy(phone) then phone else None, None, None, "USER"));
  }

  method FindOrCreateCompanyIn(db: Database) returns (c: Company)
    requires db.Valid()
    modifies db
    ensures db.Valid()
    ensures Outcome(db.Snapshot(), c) == FindOrCreateCompany(old(db.Snapshot()))
  {
    var found := CompanyNamed(db.companies, FormsCompany);
    if found.Some? {
      return db.companies[found.value];
    }
    c := db.CreateCompany(FormsCompany);
  }

  method FindOrCreateBrandIn(db: Database, company: Company) returns (b: Brand)
    requires db.Valid()
    modifies db
    ensures db.Valid()
    ensures Outcome(db.Snapshot(), b) == FindOrCreateBrand(old(db.Snapshot()), company)
  {
    var found := BrandNamed(db.brands, FormsBrand, company.id);
    if found.Some? {
      return db.brands[found.value];
    }
    b := db.CreateBrand(FormsBrand, company.id);
  }

  method FindOrCreateModelIn(db: Database, brand: Brand) returns (m: DeviceModel)
    requires db.Valid()
    modifies db
    ensures db.Valid()
    ensures Outcome(db.Snapshot(), m) == FindOrCreateModel(old(db.Snapshot()), brand)
  {
    var found := ModelNamed(db.models, FormsModel, brand.id);
    if found.Some? {
      return db.models[found.value];
    }
    m := db.CreateModel(FormsModel, brand.id);
  }

  method FindOrCreateDeviceIn(db: Database, userId: nat) returns (d: Device)
    requires db.Valid()
    modifies db
    ensures db.Valid()
    ensures Outcome(db.Snapshot(), d) == FindOrCreateDevice(old(db.Snapshot()), userId)
  {
    var serial := DeviceSerial(userId);
    var found := DeviceWithSerial(db.devices, serial);
    if found.Some? {
      return db.devices[found.value];
    }
    var c := FindOrCreateCompanyIn(db);
    var b := FindOrCreateBrandIn(db, c);
    var m := FindOrCreateModelIn(db, b);
    d := db.CreateDevice(serial, m.id);
  }

  /** The history entry, LINE push and Monday.com write-back of a stored ticket. */
  method AfterCreateIn(db: Database, ticket: Ticket, owner: User, accessToken: Option<string>, timeText: string,
                       pushOk: bool, mondayItemId: Option<string>)
    requires db.Valid() && |db.tickets| > 0
    modifies db
    ensures db.Valid()
    ensures db.Snapshot() == AfterCreate(old(db.Snapshot()), ticket, owner, accessToken, timeText, pushOk, mondayItemId)
  {
    db.AppendHistory(HistoryEntry(ticket.id, None, PENDING, FormsNote));
    NotifyIn(db, ticket, owner, accessToken, timeText, pushOk);
    WritebackIn(db, mondayItemId);
  }

  /** `Writeback` against the database. */
  method WritebackIn(db: Database, mondayItemId: Option<string>)
    requires db.Valid() && |db.tickets| > 0
    modifies db
    ensures db.Valid()
    ensures db.Snapshot() == Writeback(old(db.Snapshot()), mondayItemId)
  {
    if Truthy(mondayItemId) {
      db.SetMondayTicketId(|db.tickets| - 1, mondayItemId.value);
    }
  }

  /** `Notify` against the database. */
  method NotifyIn(db: Database, ticket: Ticket, owner: User, accessToken: Option<string>, timeText: string,
                  pushOk: bool)
    requires db.Valid()
    modifies db
    ensures db.Valid()
    ensures db.Snapshot() == Notify(old(db.Snapshot()), ticket, owner, accessToken, timeText, pushOk)
  {
    if Truthy(owner.lineUserId) {
      var delivery := LineNotifications.SendRepairTicketNotification(accessToken, owner.lineUserId.value, InfoOf(ticket), timeText, pushOk);
      if LineNotifications.Delivered(delivery) {
        db.Send(owner.lineUserId.value, Text(LineNotifications.RepairMessage(InfoOf(ticket), timeText)));
      }
    }
  }

  method OpenIn(db: Database, x: Ticket, owner: User, accessToken: Option<string>, timeText: string,
                pushOk: bool, mondayItemId: Option<string>) returns (res: Response<Submitted>)
    requires db.Valid()
    modifies db
    ensures db.Valid()
    ensures Outcome(db.Snapshot(), res) == Open(old(db.Snapshot()), x, owner, accessToken, timeText, pushOk, mondayItemId)
  {
    var created := db.CreateTicket(x);
    if created.None? {
      return Fail(500);
    }
    var ticket := created.value;
    AfterCreateIn(db, ticket, owner, accessToken, timeText, pushOk, mondayItemId);
    res := Ok(Submitted(ticket.id, ticket.ticketNumber));
  }

  /** POST against the database. */
  method HandleSubmit(db: Database, data: FormData, accessToken: Option<string>, timeText: string,
                      pushOk: bool, mondayItemId: Option<string>) returns (res: Response<Submitted>)
    requires db.Valid()
    modifies db
    ensures db.Valid()
    ensures Outcome(db.Snapshot(), res) == Submit(old(db.Snapshot()), data, accessToken, timeText, pushOk, mondayItemId)
  {
    if !Truthy(data.email) || !Truthy(data.title) || !Truthy(data.description) {
      return Fail(400);
    }
    var user := FindOrCreateUserIn(db, data.email.value, data.name, data.phone);
    var device := FindOrCreateDeviceIn(db, user.id);
    res := OpenIn(db, Draft(|db.tickets|, data, user.id, device.id), user, accessToken, timeText, pushOk, mondayItemId);
  }
}
