/** The LINE Messaging API webhook: the signature guard, the dispatcher that reads a
    chat command from each text message, and the four commands — linking a LINE
    account to a registered e-mail, the help text, the repair-form link and the
    listing of the user's latest tickets. Every reply is a push to the sender.

    Each command is specified as a function from the tables before the event to the
    tables after it; the methods perform the same steps against the database. */
module LineWebhook {
  import opened Common
  import opened Store
  import Utils
  import MondayWebhook

  // ---------------------------------------------------------------------------
  // Events and commands

  /** `event.message`: its `type` and, for a text message, its `text`. */
  datatype LineMessage = LineMessage(messageType: string, text: string)

  /** One element of `events`: its `type`, `source.userId` and `message`. */
  datatype LineEvent = LineEvent(eventType: string, sourceUserId: string, message: Option<LineMessage>)

  datatype Command = LinkCommand | HelpCommand | StatusCommand | RepairCommand | NoCommand

  /** The command a text message carries, read from its trimmed text. */
  function ClassifyText(text: string): (c: Command)
    ensures c == LinkCommand <==> "/link " <= Trim(text)
    ensures c == HelpCommand <==> Trim(text) == "/help" || Trim(text) == "help"
    ensures c == StatusCommand <==> Trim(text) == "/status" || Trim(text) == "status"
    ensures c == RepairCommand <==> Trim(text) == "/repair" || Trim(text) == "แจ้งซ่อม"
  {
    ClassifyTrimmed(Trim(text))
  }

  function ClassifyTrimmed(t: string): (c: Command)
    ensures c == LinkCommand <==> "/link " <= t
    ensures c == HelpCommand <==> t == "/help" || t == "help"
    ensures c == StatusCommand <==> t == "/status" || t == "status"
    ensures c == RepairCommand <==> t == "/repair" || t == "แจ้งซ่อม"
  {
    assert "/link " <= t ==> t[0] == '/' && t[1] == 'l';
    assert "/help"[1] != 'l' && "/status"[1] != 'l' && "/repair"[1] != 'l';
    if "/link " <= t then LinkCommand
    else if t == "/help" || t == "help" then HelpCommand
    else if t == "/status" || t == "status" then StatusCommand
    else if t == "/repair" || t == "แจ้งซ่อม" then RepairCommand
    else NoCommand
  }

  /** What `handleLineEvent` does with an event: None when it throws, which happens for
      a "message" event without a message object. Every event other than a text
      message carries no command. */
  function ClassifyEvent(e: LineEvent): (r: Option<Command>)
    ensures r.None? <==> e.eventType == "message" && e.message.None?
    ensures r.Some? && r.value != NoCommand ==>
      e.eventType == "message" && e.message.Some? && e.message.value.messageType == "text"
      && r.value == ClassifyText(e.message.value.text)
  {
    if e.eventType != "message" then Some(NoCommand)
    else match e.message
      case None => None
      case Some(m) => if m.messageType == "text" then Some(ClassifyText(m.text)) else Some(NoCommand)
  }

  // ---------------------------------------------------------------------------
  // /link

  /** `message.replace("/link ", "").trim()` on the trimmed text. */
  function LinkEmail(text: string): string {
    Trim(ReplaceFirst(text, "/link ", ""))
  }

  /** For a link command the e-mail is what follows the command word, trimmed. */
  lemma LinkEmailOfCommand(text: string)
    requires "/link " <= text
    ensures LinkEmail(text) == Trim(text[6..])
  {
    ReplaceFirstOfPrefix(text, "/link ");
  }

  /** `isValidEmail`: the same expression as `validateEmail`. */
  function IsValidEmail(email: string): bool {
    Utils.ValidateEmail(email)
  }

  /** `isValidEmail` accepts exactly the strings of the e-mail pattern. */
  lemma IsValidEmailPattern(email: string)
    ensures IsValidEmail(email) <==> Utils.MatchesEmailPattern(email)
  {
    Utils.EmailPatternCharacterised(email);
  }

  // ---------------------------------------------------------------------------
  // Pushes that LINE may refuse

  /** Whether LINE accepts the pushes of one handler: its reply, and the error notice
      its `catch` block sends when the reply, or a step before it, throws. A refused
      push throws. */
  datatype Delivery = Delivery(reply: bool, notice: bool)

  /** `await LineService.sendTextMessage(to, m)`: recorded in the outbox when LINE
      accepts it; otherwise it throws (false) and nothing is recorded. */
  function Deliver(t: Tables, to: string, m: Message, accepted: bool): (r: Outcome<bool>)
    ensures r.result == accepted
    ensures r.after == t.(outbox := r.after.outbox)
    ensures accepted ==> PushedOnce(t.outbox, r.after.outbox, to) && r.after.outbox[|t.outbox|].message == m
    ensures !accepted ==> r.after == t
  {
    if accepted then Outcome(t.(outbox := t.outbox + [Push(to, m)]), true) else Outcome(t, false)
  }

  /** A `try` block whose last step pushes `reply` (None when an earlier step threw)
      and a `catch` block that pushes `notice`. The handler throws only when the
      notice is refused as well; a thrown handler pushes nothing. */
  function TryPush(t: Tables, to: string, reply: Option<Message>, notice: Message, d: Delivery): (r: Outcome<bool>)
    ensures r.result <==> (reply.Some? && d.reply) || d.notice
    ensures r.result <==> |r.after.outbox| == |t.outbox| + 1
    ensures r.after == t.(outbox := r.after.outbox)
    ensures r.after.outbox ==
      if reply.Some? && d.reply then t.outbox + [Push(to, reply.value)]
      else if d.notice then t.outbox + [Push(to, notice)]
      else t.outbox
  {
    if reply.Some? && d.reply then Deliver(t, to, reply.value, true) else Deliver(t, to, notice, d.notice)
  }

  /** `Deliver` against the database. */
  method DeliverIn(db: Database, to: string, m: Message, accepted: bool) returns (ok: bool)
    requires db.Valid()
    modifies db
    ensures db.Valid()
    ensures Outcome(db.Snapshot(), ok) == Deliver(old(db.Snapshot()), to, m, accepted)
  {
    if accepted {
      db.Send(to, m);
    }
    ok := accepted;
  }

  /** `TryPush` against the database. */
  method TryPushIn(db: Database, to: string, reply: Option<Message>, notice: Message, d: Delivery) returns (ok: bool)
    requires db.Valid()
    modifies db
    ensures db.Valid()
    ensures Outcome(db.Snapshot(), ok) == TryPush(old(db.Snapshot()), to, reply, notice, d)
  {
    if reply.Some? {
      ok := DeliverIn(db, to, reply.value, d.reply);
      if ok {
        return;
      }
    }
    ok := DeliverIn(db, to, notice, d.notice);
  }

  // ---------------------------------------------------------------------------
  // /link

  /** The sender's LINE id may be written: the e-mail is valid, registered, and no
      other row holds the LINE id (the unique index would reject the write). */
  predicate Linkable(t: Tables, lineUserId: string, text: string) {
    && IsValidEmail(LinkEmail(text))
    && UserWithEmail(t.users, LinkEmail(text)).Some?
    && LineIdFreeFor(t.users, UserWithEmail(t.users, LinkEmail(text)).value, Some(lineUserId))
  }

  /** `handleLinkAccount` as a function of the tables: an invalid or unregistered
      e-mail gets an explanation; a registered one gets the sender's LINE id, unless
      another user holds it already, in which case the write throws. A write that
      succeeded stays even when the reply after it is refused; the `catch` block then
      pushes the error notice. Only users and the outbox change; which row is written
      and what is pushed are `LinkAccountWrite` and `LinkAccountReply`. */
  function LinkAccount(t: Tables, lineUserId: string, text: string, d: Delivery): (r: Outcome<bool>)
    ensures r.after == t.(users := r.after.users, outbox := r.after.outbox)
    ensures t.outbox <= r.after.outbox && |r.after.outbox| <= |t.outbox| + 1
  {
    var email := LinkEmail(text);
    if !IsValidEmail(email) then TryPush(t, lineUserId, Some(InvalidEmailReply), LinkErrorNotice, d)
    else match UserWithEmail(t.users, email)
      case None => TryPush(t, lineUserId, Some(AccountNotFoundReply), LinkErrorNotice, d)
      case Some(i) => LinkRow(t, lineUserId, email, i, d)
  }

  /** The registered row `i` gets the sender's LINE id, unless another row holds it. */
  function LinkRow(t: Tables, lineUserId: string, email: string, i: nat, d: Delivery): (r: Outcome<bool>)
    requires i < |t.users|
    ensures r.after == t.(users := r.after.users, outbox := r.after.outbox)
    ensures t.outbox <= r.after.outbox && |r.after.outbox| <= |t.outbox| + 1
    ensures r.after.users == t.users || r.after.users == t.users[i := t.users[i].(lineUserId := Some(lineUserId))]
  {
    if LineIdFreeFor(t.users, i, Some(lineUserId)) then
      TryPush(t.(users := t.users[i := t.users[i].(lineUserId := Some(lineUserId))]),
              lineUserId, Some(AccountLinkedReply(email)), LinkErrorNotice, d)
    else TryPush(t, lineUserId, None, LinkErrorNotice, d)
  }

  /** Exactly when the sender's LINE id may be written, that e-mail's row gets it and
      nothing else about users changes; otherwise users stay as they were. This holds
      whatever LINE does with the pushes. */
  lemma LinkAccountWrite(t: Tables, lineUserId: string, text: string, d: Delivery)
    ensures var r := LinkAccount(t, lineUserId, text, d);
      if Linkable(t, lineUserId, text) then
        var i := UserWithEmail(t.users, LinkEmail(text)).value;
        && t.users[i].email == LinkEmail(text)
        && r.after.users == t.users[i := t.users[i].(lineUserId := Some(lineUserId))]
      else r.after.users == t.users
  {
    var email := LinkEmail(text);
    if IsValidEmail(email) && UserWithEmail(t.users, email).Some? {
      var i := UserWithEmail(t.users, email).value;
      assert LinkAccount(t, lineUserId, text, d) == LinkRow(t, lineUserId, email, i, d);
    }
  }

  /** What the sender is told. The `try` block ends with the format hint for an
      invalid e-mail, the not-found text for an unregistered one, the linked text when
      the row is written, and nothing when the write throws. That reply goes out when
      LINE accepts it; otherwise the error notice does, when LINE accepts that; and
      the handler throws exactly when neither goes out. */
  lemma LinkAccountReply(t: Tables, lineUserId: string, text: string, d: Delivery)
    ensures var r := LinkAccount(t, lineUserId, text, d);
      var email := LinkEmail(text);
      var reply := if !IsValidEmail(email) then Some(InvalidEmailReply)
                   else if UserWithEmail(t.users, email).None? then Some(AccountNotFoundReply)
                   else if Linkable(t, lineUserId, text) then Some(AccountLinkedReply(email))
                   else None;
      && (r.result <==> (reply.Some? && d.reply) || d.notice)
      && r.after.outbox ==
           if reply.Some? && d.reply then t.outbox + [Push(lineUserId, reply.value)]
           else if d.notice then t.outbox + [Push(lineUserId, LinkErrorNotice)]
           else t.outbox
  {
    var email := LinkEmail(text);
    if IsValidEmail(email) && UserWithEmail(t.users, email).Some? {
      var i := UserWithEmail(t.users, email).value;
      assert LinkAccount(t, lineUserId, text, d) == LinkRow(t, lineUserId, email, i, d);
    }
  }

  /** When the linked reply is refused, the account stays linked while the sender is
      told that linking went wrong. */
  lemma LinkedButToldFailed(t: Tables, lineUserId: string, text: string, d: Delivery)
    requires Linkable(t, lineUserId, text) && !d.reply && d.notice
    ensures var r := LinkAccount(t, lineUserId, text, d);
      var i := UserWithEmail(t.users, LinkEmail(text)).value;
      && r.after.users[i].lineUserId == Some(lineUserId)
      && r.after.outbox == t.outbox + [Push(lineUserId, LinkErrorNotice)]
      && r.result
  {
    LinkAccountWrite(t, lineUserId, text, d);
    LinkAccountReply(t, lineUserId, text, d);
  }

  /** `handleLinkAccount` against the database; false when it throws. */
  method HandleLinkAccount(db: Database, lineUserId: string, text: string, d: Delivery) returns (ok: bool)
    requires db.Valid()
    modifies db
    ensures db.Valid()
    ensures Outcome(db.Snapshot(), ok) == LinkAccount(old(db.Snapshot()), lineUserId, text, d)
  {
    var email := LinkEmail(text);
    if !IsValidEmail(email) {
      ok := TryPushIn(db, lineUserId, Some(InvalidEmailReply), LinkErrorNotice, d);
      return;
    }
    var user := UserWithEmail(db.users, email);
    if user.None? {
      ok := TryPushIn(db, lineUserId, Some(AccountNotFoundReply), LinkErrorNotice, d);
      return;
    }
    ok := LinkRowIn(db, lineUserId, email, user.value, d);
  }

  /** `LinkRow` against the database: the write, then the reply or the notice. */
  method LinkRowIn(db: Database, lineUserId: string, email: string, i: nat, d: Delivery) returns (ok: bool)
    requires db.Valid() && i < |db.users|
    modifies db
    ensures db.Valid()
    ensures Outcome(db.Snapshot(), ok) == LinkRow(old(db.Snapshot()), lineUserId, email, i, d)
  {
    var written := db.SetLineUserId(i, Some(lineUserId));
    ok := TryPushIn(db, lineUserId, if written then Some(AccountLinkedReply(email)) else None, LinkErrorNotice, d);
  }

  // ---------------------------------------------------------------------------
  // /repair

  /** `sendRepairFormLink`: the form link greets the linked user by name, or by the
      polite "คุณ" when the name is empty or absent. */
  function RepairFormReplyFor(users: seq<User>, lineUserId: string): (m: Message)
    ensures UserWithLineId(users, lineUserId).None? <==> m == RepairNotLinkedReply
    ensures m.RepairFormReply? ==>
      var u := users[UserWithLineId(users, lineUserId).value];
      m.greetingName == if Truthy(u.name) then u.name.value else "คุณ"
  {
    match UserWithLineId(users, lineUserId)
    case None => RepairNotLinkedReply
    case Some(i) => RepairFormReply(OrElse(users[i].name, "คุณ"))
  }

  // ---------------------------------------------------------------------------
  // /status

  const ListingHeader: string := "📋 สถานะการซ่อมของคุณ:\n\n"

  /** The user's tickets, newest first, at most `n` of them: `findMany({where: {userId},
      orderBy: {createdAt: "desc"}, take: n})`, tickets being stored in creation order. */
  function RecentOf(tickets: seq<Ticket>, userId: nat, n: nat): (r: seq<Ticket>)
    ensures |r| <= n
    ensures forall k :: 0 <= k < |r| ==> r[k].userId == userId && r[k] in tickets
    decreases |tickets|
  {
    if n == 0 || tickets == [] then []
    else
      var last := tickets[|tickets| - 1];
      var rest := RecentOf(tickets[..|tickets| - 1], userId, if last.userId == userId then n - 1 else n);
      if last.userId == userId then [last] + rest else rest
  }

  /** Number of tickets of `userId`. */
  function CountOf(tickets: seq<Ticket>, userId: nat): nat {
    if tickets == [] then 0
    else CountOf(tickets[..|tickets| - 1], userId) + (if tickets[|tickets| - 1].userId == userId then 1 else 0)
  }

  /** The listing holds `min(n, count)` tickets: all of the user's tickets when there
      are at most `n`. */
  lemma {:induction false} RecentOfSize(tickets: seq<Ticket>, userId: nat, n: nat)
    ensures |RecentOf(tickets, userId, n)| == if CountOf(tickets, userId) < n then CountOf(tickets, userId) else n
    decreases |tickets|
  {
    if n != 0 && tickets != [] {
      var last := tickets[|tickets| - 1];
      RecentOfSize(tickets[..|tickets| - 1], userId, if last.userId == userId then n - 1 else n);
    }
  }

  /** The tickets of `userId`, in stored order. */
  function TicketsOf(tickets: seq<Ticket>, userId: nat): (r: seq<Ticket>)
    ensures |r| == CountOf(tickets, userId)
  {
    if tickets == [] then []
    else
      var last := tickets[|tickets| - 1];
      TicketsOf(tickets[..|tickets| - 1], userId) + (if last.userId == userId then [last] else [])
  }

  /** The listing is the newest end of the user's tickets: its `k`-th entry is the
      user's `k`-th ticket counted from the last stored, and it stops after `n`. */
  lemma {:induction false} RecentOfIsNewest(tickets: seq<Ticket>, userId: nat, n: nat)
    ensures var mine := TicketsOf(tickets, userId);
      var r := RecentOf(tickets, userId, n);
      && |r| == (if |mine| < n then |mine| else n)
      && forall k :: 0 <= k < |r| ==> r[k] == mine[|mine| - 1 - k]
    decreases |tickets|
  {
    if n != 0 && tickets != [] {
      var init := tickets[..|tickets| - 1];
      var last := tickets[|tickets| - 1];
      var m := if last.userId == userId then n - 1 else n;
      RecentOfIsNewest(init, userId, m);
      var mine0 := TicketsOf(init, userId);
      var mine := TicketsOf(tickets, userId);
      if last.userId == userId {
        assert mine == mine0 + [last];
        assert RecentOf(tickets, userId, n) == [last] + RecentOf(init, userId, m);
        NewestCons(last, RecentOf(init, userId, m), mine0, n);
      } else {
        assert mine == mine0;
        assert RecentOf(tickets, userId, n) == RecentOf(init, userId, m);
      }
    }
  }

  /** The newest `n - 1` of `mine0`, with `last` in front, are the newest `n` of
      `mine0 + [last]`. */
  lemma NewestCons(last: Ticket, rest: seq<Ticket>, mine0: seq<Ticket>, n: nat)
    requires n > 0 && |rest| == (if |mine0| < n - 1 then |mine0| else n - 1)
    requires forall k :: 0 <= k < |rest| ==> rest[k] == mine0[|mine0| - 1 - k]
    ensures var r := [last] + rest;
      var mine := mine0 + [last];
      && |r| == (if |mine| < n then |mine| else n)
      && forall k :: 0 <= k < |r| ==> r[k] == mine[|mine| - 1 - k]
  {
    var r := [last] + rest;
    var mine := mine0 + [last];
    forall k | 0 <= k < |r| ensures r[k] == mine[|mine| - 1 - k] {
      if k > 0 {
        assert r[k] == rest[k - 1];
      }
    }
  }

  ghost predicate CreatedInOrder(tickets: seq<Ticket>) {
    forall i, j :: 0 <= i < j < |tickets| ==> tickets[i].createdAt < tickets[j].createdAt
  }

  ghost predicate NewestFirst(tickets: seq<Ticket>) {
    forall i, j :: 0 <= i < j < |tickets| ==> tickets[i].createdAt > tickets[j].createdAt
  }

  /** Tickets stored in creation order are listed newest first. */
  lemma {:induction false} RecentOfNewestFirst(tickets: seq<Ticket>, userId: nat, n: nat)
    requires CreatedInOrder(tickets)
    ensures NewestFirst(RecentOf(tickets, userId, n))
    decreases |tickets|
  {
    if n != 0 && tickets != [] {
      var last := tickets[|tickets| - 1];
      var init := tickets[..|tickets| - 1];
      var m := if last.userId == userId then n - 1 else n;
      RecentOfNewestFirst(init, userId, m);
      var rest := RecentOf(init, userId, m);
      OlderThanLast(tickets, userId, m);
      if last.userId == userId {
        NewestFirstCons(last, rest);
      }
    }
  }

  /** What is listed from the tickets before the last one is older than the last. */
  lemma OlderThanLast(tickets: seq<Ticket>, userId: nat, m: nat)
    requires CreatedInOrder(tickets) && tickets != []
    ensures forall x :: x in RecentOf(tickets[..|tickets| - 1], userId, m) ==> x.createdAt < tickets[|tickets| - 1].createdAt
  {
    var init := tickets[..|tickets| - 1];
    forall x | x in RecentOf(init, userId, m) ensures x.createdAt < tickets[|tickets| - 1].createdAt {
      var k :| 0 <= k < |init| && init[k] == x;
      assert tickets[k] == x;
    }
  }

  /** A ticket newer than all of a newest-first list can head it. */
  lemma NewestFirstCons(last: Ticket, rest: seq<Ticket>)
    requires NewestFirst(rest) && forall x :: x in rest ==> x.createdAt < last.createdAt
    ensures NewestFirst([last] + rest)
  {
    var r := [last] + rest;
    forall i, j | 0 <= i < j < |r| ensures r[i].createdAt > r[j].createdAt {
      assert r[j] == rest[j - 1] && rest[j - 1] in rest;
      if i > 0 {
        assert r[i] == rest[i - 1];
      }
    }
  }

  /** The relations a ticket's device is shown with. */
  datatype Catalog = Catalog(companies: seq<Company>, brands: seq<Brand>, models: seq<DeviceModel>, devices: seq<Device>)

  function CatalogOf(t: Tables): Catalog {
    Catalog(t.companies, t.brands, t.models, t.devices)
  }

  /** The block of the listing for the ticket at position `index` (numbered from 1);
      `formatDate` is `toLocaleDateString("th-TH")`. */
  function Entry(c: Catalog, ticket: Ticket, index: nat, formatDate: nat -> string): (s: string)
    ensures NatToString(index + 1) + ". " + ticket.title <= s
  {
    var status := StatusName(ticket.status);
    NatToString(index + 1) + ". " + ticket.title + "\n"
      + "   อุปกรณ์: " + DeviceInfo(c.companies, c.brands, c.models, c.devices, ticket.deviceId) + "\n"
      + "   สถานะ: " + MondayWebhook.StatusEmoji(status) + " " + MondayWebhook.StatusText(status) + "\n"
      + "   วันที่: " + formatDate(ticket.createdAt) + "\n\n"
  }

  /** The blocks of all tickets of `ts`, numbered 1, 2, … in order. */
  function Entries(c: Catalog, ts: seq<Ticket>, formatDate: nat -> string): string {
    if ts == [] then "" else Entries(c, ts[..|ts| - 1], formatDate) + Entry(c, ts[|ts| - 1], |ts| - 1, formatDate)
  }

  /** The blocks of a prefix of the tickets begin the blocks of all of them. */
  lemma {:induction false} EntriesPrefix(c: Catalog, ts: seq<Ticket>, m: nat, formatDate: nat -> string)
    requires m <= |ts|
    ensures Entries(c, ts[..m], formatDate) <= Entries(c, ts, formatDate)
    decreases |ts|
  {
    if m < |ts| {
      EntriesPrefix(c, ts[..|ts| - 1], m, formatDate);
      assert ts[..|ts| - 1][..m] == ts[..m];
    } else {
      assert ts[..m] == ts;
    }
  }

  /** Extending the tickets by one extends the text by that ticket's block. */
  lemma EntriesSnoc(c: Catalog, ts: seq<Ticket>, i: nat, formatDate: nat -> string)
    requires i < |ts|
    ensures Entries(c, ts[..i + 1], formatDate) == Entries(c, ts[..i], formatDate) + Entry(c, ts[i], i, formatDate)
  {
    assert ts[..i + 1][..i] == ts[..i];
  }

  /** A string that begins with `before + e` contains every prefix of `e`. */
  lemma ContainsAfter(all: string, before: string, e: string, p: string)
    requires before + e <= all && p <= e
    ensures Contains(all, p)
  {
    assert all[|before|..|before| + |p|] == p;
    ContainsIff(all, p, |before|);
  }

  /** Ticket `k` of the listing appears as "k+1. title". */
  lemma EntriesNumbered(c: Catalog, ts: seq<Ticket>, k: nat, formatDate: nat -> string)
    requires k < |ts|
    ensures Contains(Entries(c, ts, formatDate), NatToString(k + 1) + ". " + ts[k].title)
  {
    EntriesPrefix(c, ts, k + 1, formatDate);
    EntriesSnoc(c, ts, k, formatDate);
    ContainsAfter(Entries(c, ts, formatDate), Entries(c, ts[..k], formatDate), Entry(c, ts[k], k, formatDate),
                  NatToString(k + 1) + ". " + ts[k].title);
  }

  /** Builds the listing text block by block, as the `forEach` loop does. */
  method BuildStatusText(c: Catalog, ts: seq<Ticket>, formatDate: nat -> string) returns (text: string)
    ensures text == ListingHeader + Entries(c, ts, formatDate)
  {
    var blocks := "";
    for i := 0 to |ts|
      invariant blocks == Entries(c, ts[..i], formatDate)
    {
      EntriesSnoc(c, ts, i, formatDate);
      blocks := blocks + Entry(c, ts[i], i, formatDate);
    }
    assert ts[..|ts|] == ts;
    text := ListingHeader + blocks;
  }

  /** The reply to /status: not linked, no tickets, or the listing of the latest five. */
  function StatusReply(t: Tables, lineUserId: string, formatDate: nat -> string): (m: Message)
    ensures UserWithLineId(t.users, lineUserId).None? <==> m == NotLinkedReply
    ensures UserWithLineId(t.users, lineUserId).Some? ==>
      var id := t.users[UserWithLineId(t.users, lineUserId).value].id;
      && (m == NoTicketsReply <==> CountOf(t.tickets, id) == 0)
      && (CountOf(t.tickets, id) > 0 ==>
            m == TicketListReply(ListingHeader + Entries(CatalogOf(t), RecentOf(t.tickets, id, 5), formatDate)))
    ensures m.TicketListReply? ==>
      var ts := RecentOf(t.tickets, t.users[UserWithLineId(t.users, lineUserId).value].id, 5);
      1 <= |ts| <= 5 && m.text == ListingHeader + Entries(CatalogOf(t), ts, formatDate)
  {
    match UserWithLineId(t.users, lineUserId)
    case None => NotLinkedReply
    case Some(i) =>
      var ts := RecentOf(t.tickets, t.users[i].id, 5);
      RecentOfSize(t.tickets, t.users[i].id, 5);
      if ts == [] then NoTicketsReply
      else TicketListReply(ListingHeader + Entries(CatalogOf(t), ts, formatDate))
  }

  /** `sendUserTicketStatus` against the database: the reply, or the `catch` block's
      notice when LINE refuses it; false when the handler throws. */
  method SendUserTicketStatus(db: Database, lineUserId: string, d: Delivery, formatDate: nat -> string) returns (ok: bool)
    requires db.Valid()
    modifies db
    ensures db.Valid()
    ensures Outcome(db.Snapshot(), ok)
         == TryPush(old(db.Snapshot()), lineUserId, Some(StatusReply(old(db.Snapshot()), lineUserId, formatDate)), StatusErrorNotice, d)
  {
    var reply: Message;
    var user := UserWithLineId(db.users, lineUserId);
    if user.None? {
      reply := NotLinkedReply;
    } else {
      var ts := RecentOf(db.tickets, db.users[user.value].id, 5);
      if ts == [] {
        reply := NoTicketsReply;
      } else {
        var text := BuildStatusText(Catalog(db.companies, db.brands, db.models, db.devices), ts, formatDate);
        reply := TicketListReply(text);
      }
    }
    ok := TryPushIn(db, lineUserId, Some(reply), StatusErrorNotice, d);
  }

  // ---------------------------------------------------------------------------
  // Dispatch

  /** `handleLineEvent` as a function of the tables; the result is false when it
      throws. A "message" event without a message throws at once; any other event
      runs the command it carries. */
  function EventEffect(t: Tables, e: LineEvent, d: Delivery, formatDate: nat -> string): (r: Outcome<bool>)
    ensures ClassifyEvent(e).None? ==> r == Outcome(t, false)
    ensures ClassifyEvent(e).Some? ==> r == RunCommand(t, e.sourceUserId, ClassifyEvent(e).value, TextOf(e), d, formatDate)
  {
    match ClassifyEvent(e)
    case None => Outcome(t, false)
    case Some(cmd) => RunCommand(t, e.sourceUserId, cmd, TextOf(e), d, formatDate)
  }

  /** The trimmed text of a text message. */
  function TextOf(e: LineEvent): string {
    if e.message.Some? then Trim(e.message.value.text) else ""
  }

  /** The handler of one command for the sender `to`: the help text has no `catch`,
      so a refused push throws; /link, /status and /repair end in a `try`/`catch`
      push. What a thrown handler wrote before throwing stays. */
  function RunCommand(t: Tables, to: string, cmd: Command, text: string, d: Delivery, formatDate: nat -> string): (r: Outcome<bool>)
    ensures cmd == NoCommand ==> r == Outcome(t, true)
    ensures cmd == HelpCommand ==>
      (r.result <==> d.reply) && r.after == t.(outbox := t.outbox + if d.reply then [Push(to, HelpReply)] else [])
    ensures cmd == StatusCommand || cmd == RepairCommand ==>
      && r.after == t.(outbox := r.after.outbox)
      && (r.result <==> d.reply || d.notice)
    ensures r.after == t.(users := r.after.users, outbox := r.after.outbox)
    ensures r.after.users != t.users ==> cmd == LinkCommand
    ensures t.outbox <= r.after.outbox && |r.after.outbox| <= |t.outbox| + 1
  {
    match cmd
    case LinkCommand => LinkAccount(t, to, text, d)
    case HelpCommand => Deliver(t, to, HelpReply, d.reply)
    case StatusCommand => TryPush(t, to, Some(StatusReply(t, to, formatDate)), StatusErrorNotice, d)
    case RepairCommand => TryPush(t, to, Some(RepairFormReplyFor(t.users, to)), RepairErrorNotice, d)
    case NoCommand => Outcome(t, true)
  }

  /** `after` is `before` followed by one push to `to`. */
  predicate PushedOnce(before: seq<Push>, after: seq<Push>, to: string) {
    |after| == |before| + 1 && after[..|before|] == before && after[|before|].to == to
  }

  /** A `try`/`catch` push sends exactly one push unless it throws, and then none. */
  lemma TryPushOnce(t: Tables, to: string, reply: Option<Message>, notice: Message, d: Delivery)
    ensures var r := TryPush(t, to, reply, notice, d);
      && (r.result <==> PushedOnce(t.outbox, r.after.outbox, to))
      && (!r.result ==> r.after.outbox == t.outbox)
  {
    var m := if reply.Some? && d.reply then reply.value else notice;
    assert (t.outbox + [Push(to, m)])[..|t.outbox|] == t.outbox;
  }

  /** A command sends the sender exactly one push unless its handler throws, and a
      thrown handler has pushed nothing. */
  lemma CommandPushesOnce(t: Tables, e: LineEvent, d: Delivery, formatDate: nat -> string)
    requires ClassifyEvent(e).Some? && ClassifyEvent(e) != Some(NoCommand)
    ensures var r := EventEffect(t, e, d, formatDate);
      && (r.result <==> PushedOnce(t.outbox, r.after.outbox, e.sourceUserId))
      && (!r.result ==> r.after.outbox == t.outbox)
  {
    var to := e.sourceUserId;
    match ClassifyEvent(e).value
    case LinkCommand =>
      var text := TextOf(e);
      var email := LinkEmail(text);
      if !IsValidEmail(email) {
        TryPushOnce(t, to, Some(InvalidEmailReply), LinkErrorNotice, d);
      } else if UserWithEmail(t.users, email).None? {
        TryPushOnce(t, to, Some(AccountNotFoundReply), LinkErrorNotice, d);
      } else {
        var i := UserWithEmail(t.users, email).value;
        assert LinkAccount(t, to, text, d) == LinkRow(t, to, email, i, d);
        if LineIdFreeFor(t.users, i, Some(to)) {
          TryPushOnce(t.(users := t.users[i := t.users[i].(lineUserId := Some(to))]), to, Some(AccountLinkedReply(email)), LinkErrorNotice, d);
        } else {
          TryPushOnce(t, to, None, LinkErrorNotice, d);
        }
      }
    case HelpCommand =>
      assert (t.outbox + [Push(to, HelpReply)])[..|t.outbox|] == t.outbox;
    case StatusCommand =>
      TryPushOnce(t, to, Some(StatusReply(t, to, formatDate)), StatusErrorNotice, d);
    case RepairCommand =>
      TryPushOnce(t, to, Some(RepairFormReplyFor(t.users, to)), RepairErrorNotice, d);
  }

  /** The events of one request, handled in order until one throws; event `k` meets
      LINE's `net(k)`. The result is false when one threw. */
  function HandleEvents(t: Tables, events: seq<LineEvent>, net: nat -> Delivery, formatDate: nat -> string): (r: Outcome<bool>)
    ensures r.after == t.(users := r.after.users, outbox := r.after.outbox)
    ensures t.outbox <= r.after.outbox && |r.after.outbox| <= |t.outbox| + |events|
    decreases |events|
  {
    if events == [] then Outcome(t, true)
    else
      var before := HandleEvents(t, events[..|events| - 1], net, formatDate);
      if !before.result then before
      else EventEffect(before.after, events[|events| - 1], net(|events| - 1), formatDate)
  }

  /** Handling one more event after a run that did not throw. */
  lemma HandleEventsStep(t: Tables, events: seq<LineEvent>, i: nat, net: nat -> Delivery, formatDate: nat -> string)
    requires i < |events| && HandleEvents(t, events[..i], net, formatDate).result
    ensures var a := HandleEvents(t, events[..i], net, formatDate).after;
      HandleEvents(t, events[..i + 1], net, formatDate) == EventEffect(a, events[i], net(i), formatDate)
  {
    assert events[..i + 1][..i] == events[..i];
  }

  /** Once an event throws, the later events are not handled. */
  lemma {:induction false} HandleEventsStopsAtFailure(t: Tables, events: seq<LineEvent>, m: nat, net: nat -> Delivery,
                                                      formatDate: nat -> string)
    requires m <= |events| && !HandleEvents(t, events[..m], net, formatDate).result
    ensures HandleEvents(t, events, net, formatDate) == HandleEvents(t, events[..m], net, formatDate)
    decreases |events|
  {
    if m < |events| {
      assert events[..|events| - 1][..m] == events[..m];
      HandleEventsStopsAtFailure(t, events[..|events| - 1], m, net, formatDate);
    } else {
      assert events[..m] == events;
    }
  }

  /** A push, and so a `try`/`catch` push, keeps the tables consistent. */
  lemma TryPushKeepsConsistent(t: Tables, to: string, reply: Option<Message>, notice: Message, d: Delivery)
    requires Consistent(t)
    ensures Consistent(TryPush(t, to, reply, notice, d).after)
  {
    OutboxKeepsConsistent(t, TryPush(t, to, reply, notice, d).after.outbox);
  }

  /** Every event, thrown or not, leaves the tables consistent. */
  lemma EventEffectKeepsConsistent(t: Tables, e: LineEvent, d: Delivery, formatDate: nat -> string)
    requires Consistent(t)
    ensures Consistent(EventEffect(t, e, d, formatDate).after)
  {
    var r := EventEffect(t, e, d, formatDate);
    if ClassifyEvent(e) == Some(LinkCommand) {
      LinkAccountKeepsConsistent(t, e.sourceUserId, TextOf(e), d);
    } else {
      assert r.after == t.(outbox := r.after.outbox);
      OutboxKeepsConsistent(t, r.after.outbox);
    }
  }

  /** Linking keeps the tables consistent: the written LINE id is held by no other user. */
  lemma LinkAccountKeepsConsistent(t: Tables, lineUserId: string, text: string, d: Delivery)
    requires Consistent(t)
    ensures Consistent(LinkAccount(t, lineUserId, text, d).after)
  {
    var email := LinkEmail(text);
    if !IsValidEmail(email) {
      TryPushKeepsConsistent(t, lineUserId, Some(InvalidEmailReply), LinkErrorNotice, d);
    } else if UserWithEmail(t.users, email).None? {
      TryPushKeepsConsistent(t, lineUserId, Some(AccountNotFoundReply), LinkErrorNotice, d);
    } else {
      var i := UserWithEmail(t.users, email).value;
      assert LinkAccount(t, lineUserId, text, d) == LinkRow(t, lineUserId, email, i, d);
      var u := t.users[i].(lineUserId := Some(lineUserId));
      if LineIdFreeFor(t.users, i, Some(lineUserId)) {
        UpdateUserKeepsConsistent(t, i, u);
        TryPushKeepsConsistent(t.(users := t.users[i := u]), lineUserId, Some(AccountLinkedReply(email)), LinkErrorNotice, d);
      } else {
        TryPushKeepsConsistent(t, lineUserId, None, LinkErrorNotice, d);
      }
    }
  }

  /** A request's events, however far they get, leave the tables consistent. */
  lemma {:induction false} HandleEventsKeepsConsistent(t: Tables, events: seq<LineEvent>, net: nat -> Delivery,
                                                       formatDate: nat -> string)
    requires Consistent(t)
    ensures Consistent(HandleEvents(t, events, net, formatDate).after)
    decreases |events|
  {
    if events != [] {
      var before := HandleEvents(t, events[..|events| - 1], net, formatDate);
      HandleEventsKeepsConsistent(t, events[..|events| - 1], net, formatDate);
      if before.result {
        EventEffectKeepsConsistent(before.after, events[|events| - 1], net(|events| - 1), formatDate);
      }
    }
  }

  /** `handleLineEvent` against the database; false when it throws. */
  method HandleLineEvent(db: Database, e: LineEvent, d: Delivery, formatDate: nat -> string) returns (ok: bool)
    requires db.Valid()
    modifies db
    ensures db.Valid()
    ensures Outcome(db.Snapshot(), ok) == EventEffect(old(db.Snapshot()), e, d, formatDate)
  {
    var cmd := ClassifyEvent(e);
    if cmd.None? {
      return false;
    }
    var to := e.sourceUserId;
    match cmd.value
    case LinkCommand =>
      ok := HandleLinkAccount(db, to, TextOf(e), d);
    case HelpCommand =>
      ok := DeliverIn(db, to, HelpReply, d.reply);
    case StatusCommand =>
      ok := SendUserTicketStatus(db, to, d, formatDate);
    case RepairCommand =>
      ok := TryPushIn(db, to, Some(RepairFormReplyFor(db.users, to)), RepairErrorNotice, d);
    case NoCommand =>
      ok := true;
  }

  /** `verifyLineSignature`: skipped (true) when the channel secret or the signature
      header is missing; otherwise the header must equal the base64 HMAC-SHA256 of the
      body under the secret, which is given as `digest`. */
  function VerifyLineSignature(secret: Option<string>, signature: Option<string>, digest: string): (ok: bool)
    ensures !Truthy(secret) || !Truthy(signature) ==> ok
    ensures Truthy(secret) && Truthy(signature) ==> (ok <==> signature.value == digest)
  {
    if !Truthy(secret) || !Truthy(signature) then true else signature.value == digest
  }

  /** `POST`: the response status and the tables after the request. A request whose
      signature check fails changes nothing; a thrown event answers 500 and keeps the
      effects of the events before it and of its own steps before the throw. */
  function PostOutcome(t: Tables, secret: Option<string>, signature: Option<string>, digest: string,
                       events: seq<LineEvent>, net: nat -> Delivery, formatDate: nat -> string): (r: Outcome<nat>)
    ensures r.result in {200, 401, 500}
    ensures r.result == 401 <==> !VerifyLineSignature(secret, signature, digest)
    ensures r.result == 401 ==> r.after == t
    ensures r.result != 401 ==> r.after == HandleEvents(t, events, net, formatDate).after
    ensures r.result == 200 <==> VerifyLineSignature(secret, signature, digest) && HandleEvents(t, events, net, formatDate).result
  {
    if !VerifyLineSignature(secret, signature, digest) then Outcome(t, 401)
    else
      var handled := HandleEvents(t, events, net, formatDate);
      Outcome(handled.after, if handled.result then 200 else 500)
  }

  /** The webhook endpoint: the `for … of` loop over the events. */
  method Post(db: Database, secret: Option<string>, signature: Option<string>, digest: string,
              events: seq<LineEvent>, net: nat -> Delivery, formatDate: nat -> string) returns (code: nat)
    requires db.Valid()
    modifies db
    ensures db.Valid()
    ensures Outcome(db.Snapshot(), code) == PostOutcome(old(db.Snapshot()), secret, signature, digest, events, net, formatDate)
  {
    if !VerifyLineSignature(secret, signature, digest) {
      return 401;
    }
    ghost var t := db.Snapshot();
    for i := 0 to |events|
      invariant db.Valid()
      invariant HandleEvents(t, events[..i], net, formatDate) == Outcome(db.Snapshot(), true)
    {
      HandleEventsStep(t, events, i, net, formatDate);
      var ok := HandleLineEvent(db, events[i], net(i), formatDate);
      if !ok {
        HandleEventsStopsAtFailure(t, events, i + 1, net, formatDate);
        return 500;
      }
    }
    assert events[..|events|] == events;
    code := 200;
  }
}
