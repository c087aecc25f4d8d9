/** The application's persistent state: the relational tables the route handlers
    read and write through the ORM, and the LINE pushes they emit.

    Record ids are cuid strings in the application; here they are naturals drawn
    from a counter, and a present id is always truthy. The database enforces that
    no two users share an `email` and no two users share a `lineUserId` (both are
    looked up with `findUnique`); a write that would break either is rejected. */
module Store {
  import opened Common

  datatype TicketStatus = PENDING | IN_PROGRESS | WAITING_PARTS | COMPLETED | CANCELLED

  /** The enum member's name, as it travels in JSON and in string-keyed lookups. */
  function StatusName(s: TicketStatus): string {
    match s
    case PENDING => "PENDING"
    case IN_PROGRESS => "IN_PROGRESS"
    case WAITING_PARTS => "WAITING_PARTS"
    case COMPLETED => "COMPLETED"
    case CANCELLED => "CANCELLED"
  }

  /** The members of the priority enum; the database rejects any other value. */
  const Priorities: set<string> := {"LOW", "MEDIUM", "HIGH", "URGENT"}

  /** bcrypt is not modelled: a stored hash is a symbolic value that is never a
      plaintext string and determines its input (an injective abstraction). */
  datatype PasswordHash = Bcrypt(rounds: nat, of: string)

  datatype User = User(
    id: nat,
    email: string,
    name: Option<string>,
    image: Option<string>,
    phone: Option<string>,
    password: Option<PasswordHash>,
    lineUserId: Option<string>,
    role: string)

  datatype Company = Company(id: nat, name: string)
  datatype Brand = Brand(id: nat, name: string, companyId: nat)
  datatype DeviceModel = DeviceModel(id: nat, name: string, brandId: nat)
  datatype Device = Device(id: nat, serialNumber: string, modelId: nat)

  datatype Ticket = Ticket(
    id: nat,
    ticketNumber: string,
    title: string,
    description: string,
    status: TicketStatus,
    priority: string,
    userId: nat,
    deviceId: nat,
    images: seq<string>,
    mondayTicketId: Option<string>,
    createdAt: nat)

  datatype HistoryEntry = HistoryEntry(
    ticketId: nat,
    fromStatus: Option<TicketStatus>,
    toStatus: TicketStatus,
    note: string)

  /** What a LINE push carries. Fixed Thai reply texts are named rather than spelled out. */
  datatype Message =
    | InvalidEmailReply
    | AccountNotFoundReply
    | AccountLinkedReply(email: string)
    | LinkErrorNotice
    | HelpReply
    | NotLinkedReply
    | RepairNotLinkedReply
    | NoTicketsReply
    | TicketListReply(text: string)
    | RepairFormReply(greetingName: string)
    | RepairErrorNotice
    | StatusErrorNotice
    | RegistrationWelcome(name: string)
    | StatusChangeNotice(ticketNumber: string, title: string, newStatus: TicketStatus, deviceInfo: string)
    | Text(text: string)

  datatype Push = Push(to: string, message: Message)

  /** The tables after a request, and what the request answers. */
  datatype Outcome<R> = Outcome(after: Tables, result: R)

  /** The signed-in user as the session carries it; a session without a user id is
      no session. `name` and `image` are the session's copies, which may lag behind
      the stored row; None stands for a value the session does not carry. */
  datatype SessionUser = SessionUser(id: nat, name: Option<string>, image: Option<string>, role: string)

  /** An HTTP answer: an error status with its message left out, or 200 with a body. */
  datatype Response<T> = Fail(status: nat) | Ok(body: T)

  // ---------------------------------------------------------------------------
  // Searching a table

  function UserWithEmail(users: seq<User>, email: string): Option<nat> {
    FirstIndex(users, (u: User) => u.email == email)
  }

  function UserWithId(users: seq<User>, id: nat): Option<nat> {
    FirstIndex(users, (u: User) => u.id == id)
  }

  function UserWithLineId(users: seq<User>, lineUserId: string): Option<nat> {
    FirstIndex(users, (u: User) => u.lineUserId == Some(lineUserId))
  }

  function TicketWithId(tickets: seq<Ticket>, id: nat): Option<nat> {
    FirstIndex(tickets, (t: Ticket) => t.id == id)
  }

  /** The LINE id of a ticket's owner when it is truthy (`if (ticket.user.lineUserId)`). */
  function OwnerLineId(users: seq<User>, userId: nat): (r: Option<string>)
    ensures r.Some? ==> r.value != "" && exists i :: 0 <= i < |users| && users[i].id == userId && users[i].lineUserId == r
  {
    match UserWithId(users, userId)
    case None => None
    case Some(i) => if Truthy(users[i].lineUserId) then users[i].lineUserId else None
  }

  /** "company brand model" of a device, following its relations by id; a relation
      that is not found (which the foreign keys rule out) renders as an empty name. */
  function DeviceInfo(companies: seq<Company>, brands: seq<Brand>, models: seq<DeviceModel>,
                      devices: seq<Device>, deviceId: nat): string
  {
    var d := FirstIndex(devices, (x: Device) => x.id == deviceId);
    var m := if d.Some? then FirstIndex(models, (x: DeviceModel) => x.id == devices[d.value].modelId) else None;
    var b := if m.Some? then FirstIndex(brands, (x: Brand) => x.id == models[m.value].brandId) else None;
    var c := if b.Some? then FirstIndex(companies, (x: Company) => x.id == brands[b.value].companyId) else None;
    (if c.Some? then companies[c.value].name else "") + " "
      + (if b.Some? then brands[b.value].name else "") + " "
      + (if m.Some? then models[m.value].name else "")
  }

  // ---------------------------------------------------------------------------
  // Table constraints

  ghost predicate UniqueEmails(users: seq<User>) {
    forall i, j :: 0 <= i < j < |users| ==> users[i].email != users[j].email
  }

  ghost predicate UniqueLineIds(users: seq<User>) {
    forall i, j :: 0 <= i < j < |users| && users[i].lineUserId.Some? ==>
      users[i].lineUserId != users[j].lineUserId
  }

  ghost predicate UniqueUserIds(users: seq<User>) {
    forall i, j :: 0 <= i < j < |users| ==> users[i].id != users[j].id
  }

  /** Whether writing `lineUserId := v` into row `i` keeps `lineUserId` unique:
      the database's unique index, checked on every write. */
  predicate LineIdFreeFor(users: seq<User>, i: nat, v: Option<string>) {
    v.None? || forall k :: 0 <= k < |users| && k != i ==> users[k].lineUserId != v
  }

  /** Setting a line id that no other row holds keeps the line ids unique. */
  lemma SetLineIdKeepsUnique(users: seq<User>, i: nat, v: Option<string>)
    requires i < |users| && UniqueLineIds(users) && LineIdFreeFor(users, i, v)
    ensures UniqueLineIds(users[i := users[i].(lineUserId := v)])
  {
    var us := users[i := users[i].(lineUserId := v)];
    forall a, b | 0 <= a < b < |us| && us[a].lineUserId.Some?
      ensures us[a].lineUserId != us[b].lineUserId
    {
      if a == i {
        assert us[b].lineUserId == users[b].lineUserId;
      } else if b == i {
        assert us[a].lineUserId == users[a].lineUserId;
      }
    }
  }

  /** The contents of every table at one moment. Route handlers are specified as
      functions from the tables before a request to the tables after it. */
  datatype Tables = Tables(
    users: seq<User>,
    companies: seq<Company>,
    brands: seq<Brand>,
    models: seq<DeviceModel>,
    devices: seq<Device>,
    tickets: seq<Ticket>,
    history: seq<HistoryEntry>,
    outbox: seq<Push>,
    nextId: nat,
    clock: nat)

  /** Catalog rows are stored in creation order, so their ids increase along each
      table (and are therefore unique) and stay below the id counter. */
  ghost predicate CatalogKeyed(t: Tables) {
    && (forall i, j :: 0 <= i < j < |t.companies| ==> t.companies[i].id < t.companies[j].id)
    && (forall i :: 0 <= i < |t.companies| ==> t.companies[i].id < t.nextId)
    && (forall i, j :: 0 <= i < j < |t.brands| ==> t.brands[i].id < t.brands[j].id)
    && (forall i :: 0 <= i < |t.brands| ==> t.brands[i].id < t.nextId)
    && (forall i, j :: 0 <= i < j < |t.models| ==> t.models[i].id < t.models[j].id)
    && (forall i :: 0 <= i < |t.models| ==> t.models[i].id < t.nextId)
    && (forall i, j :: 0 <= i < j < |t.devices| ==> t.devices[i].id < t.devices[j].id)
    && (forall i :: 0 <= i < |t.devices| ==> t.devices[i].id < t.nextId)
  }

  /** The constraints every request leaves intact: the unique indexes on users, fresh
      ids below the id counter, and tickets and catalog rows stored in creation order. */
  ghost predicate Consistent(t: Tables) {
    && CatalogKeyed(t)
    && UniqueEmails(t.users)
    && UniqueLineIds(t.users)
    && UniqueUserIds(t.users)
    && (forall i :: 0 <= i < |t.users| ==> t.users[i].id < t.nextId)
    && (forall i :: 0 <= i < |t.tickets| ==> t.tickets[i].id < t.nextId && t.tickets[i].createdAt < t.clock)
    && (forall i, j :: 0 <= i < j < |t.tickets| ==> t.tickets[i].createdAt < t.tickets[j].createdAt)
  }

  /** Rewriting row `i` without touching its id or e-mail, and with a LINE id that no
      other user holds, keeps the tables consistent. */
  lemma UpdateUserKeepsConsistent(t: Tables, i: nat, u: User)
    requires Consistent(t) && i < |t.users|
    requires u.id == t.users[i].id && u.email == t.users[i].email && LineIdFreeFor(t.users, i, u.lineUserId)
    ensures Consistent(t.(users := t.users[i := u]))
  {
    var us := t.users[i := u];
    forall a, b | 0 <= a < b < |us| && us[a].lineUserId.Some?
      ensures us[a].lineUserId != us[b].lineUserId
    {
      if a == i {
        assert us[b] == t.users[b];
      } else if b == i {
        assert us[a] == t.users[a];
      } else {
        assert us[a] == t.users[a] && us[b] == t.users[b];
      }
    }
    assert forall k :: 0 <= k < |us| ==> us[k].id == t.users[k].id && us[k].email == t.users[k].email;
  }

  /** Appending a device under the next id keeps the tables consistent. */
  lemma AddDeviceKeepsConsistent(t: Tables, d: Device)
    requires Consistent(t) && d.id == t.nextId
    ensures Consistent(t.(devices := t.devices + [d], nextId := t.nextId + 1))
  {
  }

  /** Storing a ticket under the next id and the current clock, then advancing
      both, keeps the tables consistent. */
  lemma AddTicketKeepsConsistent(t: Tables, x: Ticket)
    requires Consistent(t) && x.id == t.nextId && x.createdAt == t.clock
    ensures Consistent(t.(tickets := t.tickets + [x], nextId := t.nextId + 1, clock := t.clock + 1))
  {
  }

  /** Rewriting tickets without touching their ids or creation times, and changing
      neither users, catalog nor counters, keeps the tables consistent. */
  lemma RetouchTicketsKeepsConsistent(t: Tables, u: Tables)
    requires Consistent(t)
    requires u.users == t.users && u.companies == t.companies && u.brands == t.brands
    requires u.models == t.models && u.devices == t.devices && u.nextId == t.nextId && u.clock == t.clock
    requires |u.tickets| == |t.tickets|
    requires forall k :: 0 <= k < |t.tickets| ==> u.tickets[k].id == t.tickets[k].id && u.tickets[k].createdAt == t.tickets[k].createdAt
    ensures Consistent(u)
  {
  }

  /** The outbox is no part of consistency: pushing replies keeps it. */
  lemma OutboxKeepsConsistent(t: Tables, outbox: seq<Push>)
    requires Consistent(t)
    ensures Consistent(t.(outbox := outbox))
  {
  }

  /** Whether row `u` can join `users` under the unique indexes on `email` and `lineUserId`. */
  predicate Insertable(users: seq<User>, u: User) {
    (forall k :: 0 <= k < |users| ==> users[k].email != u.email) && LineIdFreeFor(users, |users|, u.lineUserId)
  }

  /** Adding an insertable user under a fresh id keeps the tables consistent. */
  lemma AddUserKeepsConsistent(t: Tables, u: User)
    requires Consistent(t) && Insertable(t.users, u)
    ensures Consistent(t.(users := t.users + [u.(id := t.nextId)], nextId := t.nextId + 1))
  {
    var us := t.users + [u.(id := t.nextId)];
    forall i, j | 0 <= i < j < |us| && us[i].lineUserId.Some?
      ensures us[i].lineUserId != us[j].lineUserId
    {
      if j == |t.users| {
        assert us[i] == t.users[i];
      }
    }
  }

  class Database {
    var users: seq<User>
    var companies: seq<Company>
    var brands: seq<Brand>
    var models: seq<DeviceModel>
    var devices: seq<Device>
    var tickets: seq<Ticket>
    var history: seq<HistoryEntry>
    /** LINE pushes emitted so far, oldest first. */
    var outbox: seq<Push>
    /** The next record id to hand out. */
    var nextId: nat
    /** The database clock: `createdAt` of the next ticket. */
    var clock: nat

    function Snapshot(): Tables
      reads this
    {
      Tables(users, companies, brands, models, devices, tickets, history, outbox, nextId, clock)
    }

    ghost predicate Valid()
      reads this
    {
      Consistent(Snapshot())
    }

    constructor ()
      ensures Valid()
      ensures users == [] && companies == [] && brands == [] && models == []
      ensures devices == [] && tickets == [] && history == [] && outbox == []
    {
      users, companies, brands, models := [], [], [], [];
      devices, tickets, history, outbox := [], [], [], [];
      nextId, clock := 0, 0;
    }

    /** `prisma.user.update({where: {id}, data: {lineUserId: v}})` on row `i`;
        the unique index on `lineUserId` rejects the write when another row holds `v`. */
    method SetLineUserId(i: nat, v: Option<string>) returns (ok: bool)
      requires Valid() && i < |users|
      modifies this
      ensures Valid()
      ensures ok == LineIdFreeFor(old(users), i, v)
      ensures users == if ok then old(users)[i := old(users)[i].(lineUserId := v)] else old(users)
      ensures companies == old(companies) && brands == old(brands) && models == old(models)
      ensures devices == old(devices) && tickets == old(tickets) && history == old(history)
      ensures outbox == old(outbox) && nextId == old(nextId) && clock == old(clock)
    {
      ok := LineIdFreeFor(users, i, v);
      if ok {
        SetLineIdKeepsUnique(users, i, v);
        users := users[i := users[i].(lineUserId := v)];
      }
    }

    /** `prisma.repairTicket.update({where: {id}, data: {status}})` on row `i`. */
    method SetTicketStatus(i: nat, status: TicketStatus)
      requires Valid() && i < |tickets|
      modifies this
      ensures Valid()
      ensures Snapshot() == old(Snapshot()).(tickets := old(tickets)[i := old(tickets)[i].(status := status)])
    {
      tickets := tickets[i := tickets[i].(status := status)];
    }

    /** `prisma.repairStatusHistory.create`: appends one history row. */
    method AppendHistory(e: HistoryEntry)
      requires Valid()
      modifies this
      ensures Valid()
      ensures Snapshot() == old(Snapshot()).(history := old(history) + [e])
    {
      history := history + [e];
    }

    /** `prisma.user.create`: the new row gets the next id; the unique indexes reject
        a row whose e-mail or LINE id another user holds. */
    method CreateUser(u: User) returns (r: Option<User>)
      requires Valid()
      modifies this
      ensures Valid()
      ensures r.Some? <==> Insertable(old(users), u)
      ensures r.Some? ==> r.value == u.(id := old(nextId))
      ensures Snapshot() == if r.Some? then old(Snapshot()).(users := old(users) + [r.value], nextId := old(nextId) + 1)
                            else old(Snapshot())
    {
      if !Insertable(users, u) {
        return None;
      }
      var created := InsertUser(u);
      r := Some(created);
    }

    /** `prisma.user.create` of a row the unique indexes accept. */
    method InsertUser(u: User) returns (created: User)
      requires Valid() && Insertable(users, u)
      modifies this
      ensures Valid()
      ensures created == u.(id := old(nextId))
      ensures Snapshot() == old(Snapshot()).(users := old(users) + [created], nextId := old(nextId) + 1)
    {
      AddUserKeepsConsistent(Snapshot(), u);
      created := u.(id := nextId);
      users := users + [created];
      nextId := nextId + 1;
    }

    /** `prisma.user.update` of row `i` with a write the unique indexes accept. */
    method SetUser(i: nat, u: User)
      requires Valid() && i < |users|
      requires u.id == users[i].id && u.email == users[i].email && LineIdFreeFor(users, i, u.lineUserId)
      modifies this
      ensures Valid()
      ensures Snapshot() == old(Snapshot()).(users := old(users)[i := u])
    {
      UpdateUserKeepsConsistent(Snapshot(), i, u);
      users := users[i := u];
    }

    method CreateCompany(name: string) returns (c: Company)
      requires Valid()
      modifies this
      ensures Valid()
      ensures c == Company(old(nextId), name)
      ensures Snapshot() == old(Snapshot()).(companies := old(companies) + [c], nextId := old(nextId) + 1)
    {
      c := Company(nextId, name);
      companies := companies + [c];
      nextId := nextId + 1;
    }

    method CreateBrand(name: string, companyId: nat) returns (b: Brand)
      requires Valid()
      modifies this
      ensures Valid()
      ensures b == Brand(old(nextId), name, companyId)
      ensures Snapshot() == old(Snapshot()).(brands := old(brands) + [b], nextId := old(nextId) + 1)
    {
      b := Brand(nextId, name, companyId);
      brands := brands + [b];
      nextId := nextId + 1;
    }

    method CreateModel(name: string, brandId: nat) returns (m: DeviceModel)
      requires Valid()
      modifies this
      ensures Valid()
      ensures m == DeviceModel(old(nextId), name, brandId)
      ensures Snapshot() == old(Snapshot()).(models := old(models) + [m], nextId := old(nextId) + 1)
    {
      m := DeviceModel(nextId, name, brandId);
      models := models + [m];
      nextId := nextId + 1;
    }

    method CreateDevice(serialNumber: string, modelId: nat) returns (d: Device)
      requires Valid()
      modifies this
      ensures Valid()
      ensures d == Device(old(nextId), serialNumber, modelId)
      ensures Snapshot() == old(Snapshot()).(devices := old(devices) + [d], nextId := old(nextId) + 1)
    {
      d := Device(nextId, serialNumber, modelId);
      devices := devices + [d];
      nextId := nextId + 1;
    }

    /** `prisma.repairTicket.create`: the new row gets the next id and the current
        time; a priority outside the enum is rejected. */
    method CreateTicket(x: Ticket) returns (r: Option<Ticket>)
      requires Valid()
      modifies this
      ensures Valid()
      ensures r.Some? <==> x.priority in Priorities
      ensures r.Some? ==> r.value == x.(id := old(nextId), createdAt := old(clock))
      ensures Snapshot() == if r.Some? then old(Snapshot()).(tickets := old(tickets) + [r.value], nextId := old(nextId) + 1, clock := old(clock) + 1)
                            else old(Snapshot())
    {
      if x.priority !in Priorities {
        return None;
      }
      r := Some(x.(id := nextId, createdAt := clock));
      tickets := tickets + [r.value];
      nextId, clock := nextId + 1, clock + 1;
    }

    /** `prisma.repairTicket.update({data: {mondayTicketId}})` on row `i`. */
    method SetMondayTicketId(i: nat, mondayTicketId: string)
      requires Valid() && i < |tickets|
      modifies this
      ensures Valid()
      ensures Snapshot() == old(Snapshot()).(tickets := old(tickets)[i := old(tickets)[i].(mondayTicketId := Some(mondayTicketId))])
    {
      tickets := tickets[i := tickets[i].(mondayTicketId := Some(mondayTicketId))];
    }

    /** Appends a LINE push to the outbox. */
    method Send(to: string, message: Message)
      requires Valid()
      modifies this
      ensures Valid()
      ensures outbox == old(outbox) + [Push(to, message)]
      ensures users == old(users) && companies == old(companies) && brands == old(brands)
      ensures models == old(models) && devices == old(devices) && tickets == old(tickets)
      ensures history == old(history) && nextId == old(nextId) && clock == old(clock)
    {
      outbox := outbox + [Push(to, message)];
    }
  }
}
