/** `/api/tickets`, the signed-in listing and creation of repair tickets: GET pages
    through the tickets the caller may see, filtered by status, priority and a
    case-insensitive search, newest first; POST opens a ticket on a known device. */
module TicketsRoute {
  import opened Common
  import opened Store

  // ---------------------------------------------------------------------------
  // Query parameters

  /** The longest run of decimal digits at the start of `s`. */
  function DigitPrefix(s: string): (d: string)
    ensures d <= s && AllDigits(d)
    ensures |d| < |s| ==> !IsDigit(s[|d|])
  {
    if s != [] && IsDigit(s[0]) then [s[0]] + DigitPrefix(s[1..]) else []
  }

  /** The value of a signed run of digits: the sign, if any, then `DigitPrefix`. */
  function SignedValue(u: string): (r: Option<int>)
    ensures r.None? <==> DigitPrefix(if u != [] && (u[0] == '-' || u[0] == '+') then u[1..] else u) == []
  {
    var signed := u != [] && (u[0] == '-' || u[0] == '+');
    var d := DigitPrefix(if signed then u[1..] else u);
    var v: int := if d == [] then 0 else ParseDigits(d);
    if d == [] then None
    else if signed && u[0] == '-' then Some(-v)
    else Some(v)
  }

  /** `parseInt(s)` for decimal text: leading whitespace skipped, an optional sign,
      then the longest run of digits; NaN (None) when there is no digit. */
  function ParseInt(s: string): (r: Option<int>)
    ensures r.None? <==> SignedValue(TrimStart(s)).None?
  {
    SignedValue(TrimStart(s))
  }

  /** Text that starts with a digit run followed by a non-digit parses to that run's
      value. */
  lemma ParseIntOfDigits(s: string, tail: string)
    requires s != [] && AllDigits(s) && (tail == [] || !IsDigit(tail[0]))
    ensures ParseInt(s + tail) == Some(ParseDigits(s))
  {
    var m := s + tail;
    assert m[0] == s[0];
    Unspaced(m);
    DigitPrefixOf(s, tail);
  }

  /** A number's decimal rendering parses back to it, whatever non-digit text follows. */
  lemma ParseIntRoundTrip(n: nat, tail: string)
    requires tail == [] || !IsDigit(tail[0])
    ensures ParseInt(NatToString(n) + tail) == Some(n)
  {
    ParseIntOfDigits(NatToString(n), tail);
  }

  /** With a minus sign in front, it parses to the negated number. */
  lemma ParseIntNegative(n: nat, tail: string)
    requires tail == [] || !IsDigit(tail[0])
    ensures ParseInt("-" + NatToString(n) + tail) == Some(-(n as int))
  {
    ParseIntOfNegativeDigits(NatToString(n), tail);
  }

  /** A minus sign, a digit run and a non-digit parse to the run's value negated. */
  lemma ParseIntOfNegativeDigits(s: string, tail: string)
    requires s != [] && AllDigits(s) && (tail == [] || !IsDigit(tail[0]))
    ensures ParseInt("-" + s + tail) == Some(-(ParseDigits(s) as int))
  {
    var body := s + tail;
    assert "-" + s + tail == ['-'] + body;
    assert !IsSpace('-');
    Unspaced(['-'] + body);
    DigitPrefixOf(s, tail);
    MinusSign(body);
  }

  /** A leading minus negates the value of the digits after it. */
  lemma MinusSign(body: string)
    requires DigitPrefix(body) != []
    ensures SignedValue(['-'] + body) == Some(-(ParseDigits(DigitPrefix(body)) as int))
  {
    assert (['-'] + body)[1..] == body;
  }

  lemma Unspaced(s: string)
    requires s != [] && !IsSpace(s[0])
    ensures TrimStart(s) == s
  {
  }

  lemma {:induction false} DigitPrefixOf(s: string, tail: string)
    requires AllDigits(s) && (tail == [] || !IsDigit(tail[0]))
    ensures DigitPrefix(s + tail) == s
    decreases |s|
  {
    if s == [] {
      assert s + tail == tail;
    } else {
      assert (s + tail)[1..] == s[1..] + tail;
      DigitPrefixOf(s[1..], tail);
    }
  }

  /** `Math.ceil(total / limit)` for a non-zero limit. */
  function CeilDiv(total: nat, limit: int): (r: int)
    requires limit != 0
    ensures limit > 0 ==> (r - 1) * limit < total <= r * limit
    ensures limit < 0 ==> r * limit <= total < (r - 1) * limit
  {
    if limit > 0 then (total + limit - 1) / limit else -(total / -limit)
  }

  /** `pages` of the answer; a zero limit gives Infinity or NaN, which JSON writes as null. */
  function Pages(total: nat, limit: int): (r: Option<int>)
    ensures r.None? <==> limit == 0
    ensures limit > 0 ==> r.value >= 0 && (r.value - 1) * limit < total <= r.value * limit
    ensures limit < 0 ==> r.value <= 0 && r.value * limit <= total < (r.value - 1) * limit
  {
    if limit == 0 then None else Some(CeilDiv(total, limit))
  }

  /** For a page within range, the offset it skips to lies within the results. */
  lemma SkipWithinTotal(page: int, limit: int, total: nat)
    requires page >= 1 && limit >= 1 && page <= Pages(total, limit).value
    ensures 0 <= (page - 1) * limit < total
  {
    var r := CeilDiv(total, limit);
    assert (page - 1) * limit <= (r - 1) * limit by {
      MultiplyMonotone(page - 1, r - 1, limit);
    }
  }

  lemma MultiplyMonotone(a: int, b: int, c: int)
    requires a <= b && c >= 0
    ensures a * c <= b * c
  {
    assert b * c - a * c == (b - a) * c;
  }

  // ---------------------------------------------------------------------------
  // The filter

  /** The filter GET passes to the database; an absent field does not filter. */
  datatype Where = Where(userId: Option<nat>, status: Option<string>, priority: Option<string>, search: Option<string>)

  /** The filter for a caller and the query: the caller's own tickets for the USER
      role, and each of status, priority and search only when truthy. */
  function WhereOf(session: SessionUser, status: Option<string>, priority: Option<string>,
                   search: Option<string>): (w: Where)
    ensures w.userId.Some? <==> session.role == "USER"
    ensures w.userId.Some? ==> w.userId.value == session.id
    ensures (w.status.Some? <==> Truthy(status)) && (w.status.Some? ==> w.status == status)
    ensures (w.priority.Some? <==> Truthy(priority)) && (w.priority.Some? ==> w.priority == priority)
    ensures (w.search.Some? <==> Truthy(search)) && (w.search.Some? ==> w.search == search)
  {
    Where(if session.role == "USER" then Some(session.id) else None,
          if Truthy(status) then status else None,
          if Truthy(priority) then priority else None,
          if Truthy(search) then search else None)
  }

  /** The route's construction of the filter, one field at a time. */
  method BuildWhere(session: SessionUser, status: Option<string>, priority: Option<string>,
                    search: Option<string>) returns (w: Where)
    ensures w == WhereOf(session, status, priority, search)
  {
    w := Where(None, None, None, None);
    if session.role == "USER" {
      w := w.(userId := Some(session.id));
    }
    if Truthy(status) {
      w := w.(status := status);
    }
    if Truthy(priority) {
      w := w.(priority := priority);
    }
    if Truthy(search) {
      w := w.(search := search);
    }
  }

  const StatusNames: set<string> := {"PENDING", "IN_PROGRESS", "WAITING_PARTS", "COMPLETED", "CANCELLED"}

  /** The enum filters name enum members; the database rejects the query otherwise. */
  function KnownFilters(w: Where): (r: bool)
    ensures r <==> && (w.status.None? || exists s: TicketStatus :: StatusName(s) == w.status.value)
                   && (w.priority.None? || w.priority.value in Priorities)
  {
    StatusNamesNameStatuses();
    (w.status.None? || w.status.value in StatusNames) && (w.priority.None? || w.priority.value in Priorities)
  }

  /** `StatusNames` holds the names of the status enum and nothing else. */
  lemma StatusNamesNameStatuses()
    ensures forall n :: n in StatusNames <==> exists s: TicketStatus :: StatusName(s) == n
  {
    assert StatusName(PENDING) == "PENDING" && StatusName(IN_PROGRESS) == "IN_PROGRESS";
    assert StatusName(WAITING_PARTS) == "WAITING_PARTS" && StatusName(COMPLETED) == "COMPLETED";
    assert StatusName(CANCELLED) == "CANCELLED";
  }

  function Lower(c: char): char {
    if 'A' <= c <= 'Z' then (c as int + 32) as char else c
  }

  function LowerAll(s: string): (r: string)
    ensures |r| == |s| && forall k :: 0 <= k < |s| ==> r[k] == Lower(s[k])
  {
    if s == [] then [] else [Lower(s[0])] + LowerAll(s[1..])
  }

  /** `contains` with `mode: 'insensitive'`, folding ASCII letters. The empty term
      is found everywhere; a longer term than the field is found nowhere. */
  function ContainsInsensitive(hay: string, needle: string): (r: bool)
    ensures needle == [] ==> r
    ensures r ==> |needle| <= |hay|
  {
    assert needle == [] ==> OccursAt(LowerAll(hay), LowerAll(needle), 0);
    Contains(LowerAll(hay), LowerAll(needle))
  }

  /** A verbatim occurrence is found by the case-insensitive search too. */
  lemma ExactMatchIsFound(hay: string, needle: string)
    ensures Contains(hay, needle) ==> ContainsInsensitive(hay, needle)
  {
    if Contains(hay, needle) {
      var k := IndexOf(hay, needle).value;
      ContainsIff(hay, needle, k);
      assert LowerAll(hay)[k..k + |needle|] == LowerAll(needle);
      ContainsIff(LowerAll(hay), LowerAll(needle), k);
    }
  }

  /** The owner's name, when the owner row and the name exist. */
  function OwnerName(users: seq<User>, userId: nat): Option<string> {
    match UserWithId(users, userId)
    case None => None
    case Some(i) => users[i].name
  }

  /** The search's `OR`: the number, the title, the description or the owner's name.
      A verbatim occurrence in any of them is a hit. */
  function SearchHit(users: seq<User>, x: Ticket, search: string): (r: bool)
    ensures Contains(x.ticketNumber, search) || Contains(x.title, search) || Contains(x.description, search) ==> r
    ensures OwnerName(users, x.userId).Some? && Contains(OwnerName(users, x.userId).value, search) ==> r
  {
    var owner := OwnerName(users, x.userId);
    ExactMatchIsFound(x.ticketNumber, search);
    ExactMatchIsFound(x.title, search);
    ExactMatchIsFound(x.description, search);
    ExactMatchIsFound(if owner.Some? then owner.value else "", search);
    || ContainsInsensitive(x.ticketNumber, search)
    || ContainsInsensitive(x.title, search)
    || ContainsInsensitive(x.description, search)
    || (OwnerName(users, x.userId).Some? && ContainsInsensitive(OwnerName(users, x.userId).value, search))
  }

  /** A ticket passes every filter that is present. No ticket passes a status filter
      that names no status, and every ticket passes the empty filter. */
  function Matches(users: seq<User>, w: Where, x: Ticket): (r: bool)
    ensures w == Where(None, None, None, None) ==> r
    ensures w.status.Some? && w.status.value !in StatusNames ==> !r
  {
    && (w.userId.None? || x.userId == w.userId.value)
    && (w.status.None? || StatusName(x.status) == w.status.value)
    && (w.priority.None? || x.priority == w.priority.value)
    && (w.search.None? || SearchHit(users, x, w.search.value))
  }

  /** The matching tickets, in stored order. */
  function Select(users: seq<User>, w: Where, tickets: seq<Ticket>): (r: seq<Ticket>)
    ensures |r| <= |tickets|
    ensures forall x :: x in r ==> Matches(users, w, x) && x in tickets
    ensures forall k :: 0 <= k < |tickets| && Matches(users, w, tickets[k]) ==> tickets[k] in r
  {
    if tickets == [] then []
    else
      var init := Select(users, w, tickets[..|tickets| - 1]);
      var last := tickets[|tickets| - 1];
      assert forall k :: 0 <= k < |tickets| - 1 ==> tickets[k] == tickets[..|tickets| - 1][k];
      if Matches(users, w, last) then init + [last] else init
  }

  predicate Ascending(ts: seq<Ticket>) {
    forall i, j :: 0 <= i < j < |ts| ==> ts[i].createdAt < ts[j].createdAt
  }

  predicate Descending(ts: seq<Ticket>) {
    forall i, j :: 0 <= i < j < |ts| ==> ts[i].createdAt > ts[j].createdAt
  }

  /** Selecting keeps the stored order. */
  lemma {:induction false} SelectAscending(users: seq<User>, w: Where, tickets: seq<Ticket>)
    requires Ascending(tickets)
    ensures Ascending(Select(users, w, tickets))
  {
    if tickets != [] {
      var init := tickets[..|tickets| - 1];
      SelectAscending(users, w, init);
      var s := Select(users, w, init);
      var last := tickets[|tickets| - 1];
      forall k | 0 <= k < |s| ensures s[k].createdAt < last.createdAt {
        assert s[k] in s;
        var j :| 0 <= j < |init| && init[j] == s[k];
        assert tickets[j] == init[j];
      }
    }
  }

  function Reverse(ts: seq<Ticket>): (r: seq<Ticket>)
    ensures |r| == |ts| && forall k :: 0 <= k < |ts| ==> r[k] == ts[|ts| - 1 - k]
  {
    if ts == [] then [] else [ts[|ts| - 1]] + Reverse(ts[..|ts| - 1])
  }

  /** The bounds of `skip` and `take` on `n` ordered results. A negative `take`
      counts back from the end of what remains after skipping from that end. */
  function WindowBounds(n: nat, skip: nat, take: int): (b: (nat, nat))
    ensures b.0 <= b.1 <= n
    ensures take >= 0 ==> b.1 - b.0 <= take
    ensures take >= 0 && skip < n ==> b.0 == skip && b.1 - b.0 == if skip + take <= n then take else n - skip
    ensures take < 0 ==> b.1 - b.0 <= -take
    ensures take < 0 && skip < n ==>
      b.1 == n - skip && b.1 - b.0 == if skip - take <= n then -take else n - skip
  {
    if take >= 0 then
      (if skip <= n then skip else n, if skip + take <= n then skip + take else n)
    else
      var hi := if skip <= n then n - skip else 0;
      (if hi + take >= 0 then hi + take else 0, hi)
  }

  /** Prisma's `skip` and `take` on ordered rows: a non-negative `take` reads forward
      from row `skip`; a negative one reads backward, ending `skip` rows before the end. */
  function Window(rows: seq<Ticket>, skip: nat, take: int): (r: seq<Ticket>)
    ensures take >= 0 ==>
      && |r| == (if skip >= |rows| then 0 else if skip + take <= |rows| then take else |rows| - skip)
      && forall k :: 0 <= k < |r| ==> r[k] == rows[skip + k]
    ensures take < 0 ==>
      && |r| == (if skip >= |rows| then 0 else if skip - take <= |rows| then -take else |rows| - skip)
      && forall k :: 0 <= k < |r| ==> r[k] == rows[|rows| - skip - |r| + k]
  {
    var b := WindowBounds(|rows|, skip, take);
    rows[b.0..b.1]
  }

  /** The page shown: the window over the matches, newest first. It holds only
      matches, and in descending creation order when the matches ascend. */
  function Newest(matched: seq<Ticket>, skip: nat, take: int): (rows: seq<Ticket>)
    ensures forall x :: x in rows ==> x in matched
    ensures Ascending(matched) ==> Descending(rows)
    ensures take >= 0 ==>
      && |rows| == (if skip >= |matched| then 0 else if skip + take <= |matched| then take else |matched| - skip)
      && forall k :: 0 <= k < |rows| ==> rows[k] == matched[|matched| - 1 - (skip + k)]
    ensures take < 0 ==>
      && |rows| == (if skip >= |matched| then 0 else if skip - take <= |matched| then -take else |matched| - skip)
      && forall k :: 0 <= k < |rows| ==> rows[k] == matched[skip + |rows| - 1 - k]
  {
    var rev := Reverse(matched);
    var b := WindowBounds(|rev|, skip, take);
    assert forall k :: 0 <= k < b.1 - b.0 ==> rev[b.0..b.1][k] == matched[|matched| - 1 - (b.0 + k)];
    Window(rev, skip, take)
  }

  // ---------------------------------------------------------------------------
  // GET

  datatype Query = Query(page: Option<string>, limit: Option<string>, status: Option<string>,
                         search: Option<string>, priority: Option<string>)

  datatype TicketPage = TicketPage(tickets: seq<Ticket>, page: int, limit: int, total: nat, pages: Option<int>)

  /** GET: 401 without a session. `page` and `limit` default to 1 and 10; a value
      that does not parse makes the query throw (500); otherwise `Listing`. */
  function List(t: Tables, session: Option<SessionUser>, q: Query): (r: Response<TicketPage>)
    ensures r == Fail(401) <==> session.None?
    ensures r.Fail? ==> r.status == 401 || r.status == 500
    ensures session.Some? ==>
      var page := ParseInt(OrElse(q.page, "1"));
      var limit := ParseInt(OrElse(q.limit, "10"));
      if page.None? || limit.None? then r == Fail(500)
      else r == Listing(t, session.value, page.value, limit.value, q)
  {
    if session.None? then Fail(401)
    else
      var page := ParseInt(OrElse(q.page, "1"));
      var limit := ParseInt(OrElse(q.limit, "10"));
      if page.None? || limit.None? then Fail(500)
      else Listing(t, session.value, page.value, limit.value, q)
  }

  /** The page a parsed `page` and `limit` select: a negative offset or an enum
      filter naming no member makes the query throw (500); otherwise the window of
      the matching tickets, newest first, with the number of matches and of pages. */
  function Listing(t: Tables, session: SessionUser, page: int, limit: int, q: Query): (r: Response<TicketPage>)
    ensures r.Fail? <==> (page - 1) * limit < 0 || !KnownFilters(WhereOf(session, q.status, q.priority, q.search))
    ensures r.Fail? ==> r.status == 500
    ensures r.Ok? ==>
      var w := WhereOf(session, q.status, q.priority, q.search);
      && r.body.page == page && r.body.limit == limit
      && r.body.total == |Select(t.users, w, t.tickets)|
      && r.body.pages == Pages(r.body.total, limit)
      && (forall x :: x in r.body.tickets ==> Matches(t.users, w, x) && x in t.tickets)
      && r.body.tickets == Newest(Select(t.users, w, t.tickets), (page - 1) * limit, limit)
  {
    var skip := (page - 1) * limit;
    var w := WhereOf(session, q.status, q.priority, q.search);
    if skip < 0 || !KnownFilters(w) then Fail(500)
    else
      var matched := Select(t.users, w, t.tickets);
      Ok(TicketPage(Newest(matched, skip, limit), page, limit, |matched|, Pages(|matched|, limit)))
  }

  /** GET against the database; it reads and changes nothing. */
  method Get(db: Database, session: Option<SessionUser>, q: Query) returns (r: Response<TicketPage>)
    ensures r == List(db.Snapshot(), session, q)
  {
    if session.None? {
      return Fail(401);
    }
    var page := ParseInt(OrElse(q.page, "1"));
    var limit := ParseInt(OrElse(q.limit, "10"));
    if page.None? || limit.None? {
      return Fail(500);
    }
    r := GetPage(db, session.value, page.value, limit.value, q);
  }

  /** `Listing` against the database. */
  method GetPage(db: Database, session: SessionUser, page: int, limit: int, q: Query) returns (r: Response<TicketPage>)
    ensures r == Listing(db.Snapshot(), session, page, limit, q)
  {
    var skip := (page - 1) * limit;
    var w := BuildWhere(session, q.status, q.priority, q.search);
    if skip < 0 || !KnownFilters(w) {
      return Fail(500);
    }
    var matched := Select(db.users, w, db.tickets);
    r := Ok(TicketPage(Newest(matched, skip, limit), page, limit, |matched|, Pages(|matched|, limit)));
  }

  /** The default texts of `page` and `limit` parse to 1 and 10. */
  lemma DefaultPaging()
    ensures ParseInt("1") == Some(1) && ParseInt("10") == Some(10)
  {
    DefaultPage();
    DefaultLimit();
  }

  lemma DefaultPage()
    ensures ParseInt("1") == Some(1)
  {
    assert AllDigits("1") && ParseDigits("1") == 1;
    DigitsParse("1");
  }

  lemma DefaultLimit()
    ensures ParseInt("10") == Some(10)
  {
    assert AllDigits("10") && ParseDigits("10") == 10;
    DigitsParse("10");
  }

  /** Digits alone parse to their value. */
  lemma DigitsParse(s: string)
    requires s != [] && AllDigits(s)
    ensures ParseInt(s) == Some(ParseDigits(s))
  {
    ParseIntOfDigits(s, []);
    assert s + [] == s;
  }

  /** A caller with the USER role sees only their own tickets. */
  lemma UserRoleSeesOwnTickets(t: Tables, session: SessionUser, q: Query)
    requires session.role == "USER" && List(t, Some(session), q).Ok?
    ensures forall x :: x in List(t, Some(session), q).body.tickets ==> x.userId == session.id
  {
    var page := ParseInt(OrElse(q.page, "1")).value;
    var limit := ParseInt(OrElse(q.limit, "10")).value;
    assert List(t, Some(session), q) == Listing(t, session, page, limit, q);
  }

  /** Any other role with no filters counts every ticket. */
  lemma OtherRolesUnrestricted(t: Tables, session: SessionUser, q: Query)
    requires session.role != "USER" && !Truthy(q.status) && !Truthy(q.priority) && !Truthy(q.search)
    requires List(t, Some(session), q).Ok?
    ensures List(t, Some(session), q).body.total == |t.tickets|
  {
    var page := ParseInt(OrElse(q.page, "1")).value;
    var limit := ParseInt(OrElse(q.limit, "10")).value;
    assert List(t, Some(session), q) == Listing(t, session, page, limit, q);
    var w := WhereOf(session, q.status, q.priority, q.search);
    SelectAll(t.users, w, t.tickets);
  }

  lemma {:induction false} SelectAll(users: seq<User>, w: Where, tickets: seq<Ticket>)
    requires forall k :: 0 <= k < |tickets| ==> Matches(users, w, tickets[k])
    ensures Select(users, w, tickets) == tickets
  {
    if tickets != [] {
      SelectAll(users, w, tickets[..|tickets| - 1]);
      assert tickets[..|tickets| - 1] + [tickets[|tickets| - 1]] == tickets;
    }
  }

  /** In consistent tables a page lists its tickets newest first. */
  lemma PageNewestFirst(t: Tables, session: SessionUser, q: Query)
    requires Consistent(t) && List(t, Some(session), q).Ok?
    ensures Descending(List(t, Some(session), q).body.tickets)
  {
    var page := ParseInt(OrElse(q.page, "1")).value;
    var limit := ParseInt(OrElse(q.limit, "10")).value;
    assert List(t, Some(session), q) == Listing(t, session, page, limit, q);
    ListingNewestFirst(t, session, page, limit, q);
  }

  /** Over tickets in creation order, a listed page runs newest first. */
  lemma ListingNewestFirst(t: Tables, session: SessionUser, page: int, limit: int, q: Query)
    requires Ascending(t.tickets) && Listing(t, session, page, limit, q).Ok?
    ensures Descending(Listing(t, session, page, limit, q).body.tickets)
  {
    var w := WhereOf(session, q.status, q.priority, q.search);
    var matched := Select(t.users, w, t.tickets);
    assert Listing(t, session, page, limit, q).body.tickets == Newest(matched, (page - 1) * limit, limit);
    SelectAscending(t.users, w, t.tickets);
  }

  // ---------------------------------------------------------------------------
  // POST

  const CreateNote: string := "สร้างการแจ้งซ่อมใหม่"

  function DeviceWithId(devices: seq<Device>, id: nat): Option<nat> {
    FirstIndex(devices, (d: Device) => d.id == id)
  }

  /** POST: 401 without a session; 400 unless title, description and device id are
      given; 404 for an unknown device; 500 when the insert throws (a priority that
      is no enum member, or a session user without a row, which the foreign key
      rejects). Otherwise a PENDING ticket of the caller with no images, priority
      MEDIUM by default, and one history entry. `ticketNumber` is generated outside. */
  function Create(t: Tables, session: Option<SessionUser>, title: Option<string>, description: Option<string>,
                  deviceId: Option<nat>, priority: Option<string>, ticketNumber: string): (r: Outcome<Response<Ticket>>)
    ensures r.result == Fail(401) <==> session.None?
    ensures session.Some? ==> (r.result == Fail(400) <==> !Truthy(title) || !Truthy(description) || deviceId.None?)
    ensures r.result == Fail(404) ==> DeviceWithId(t.devices, deviceId.value).None?
    ensures session.Some? && Truthy(title) && Truthy(description) && deviceId.Some? ==>
      && (r.result == Fail(404) <==> DeviceWithId(t.devices, deviceId.value).None?)
      && (r.result == Fail(500) <==>
            && DeviceWithId(t.devices, deviceId.value).Some?
            && (OrElse(priority, "MEDIUM") !in Priorities || UserWithId(t.users, session.value.id).None?))
    ensures r.result.Fail? ==> r.result.status in {400, 401, 404, 500}
    ensures r.result.Fail? ==> r.after == t
    ensures r.result.Ok? ==>
      var x := r.result.body;
      && x == Ticket(t.nextId, ticketNumber, title.value, description.value, PENDING, OrElse(priority, "MEDIUM"),
                     session.value.id, deviceId.value, [], None, t.clock)
      && x.priority in Priorities
      && DeviceWithId(t.devices, deviceId.value).Some? && UserWithId(t.users, session.value.id).Some?
      && r.after == t.(tickets := t.tickets + [x], history := t.history + [HistoryEntry(x.id, None, PENDING, CreateNote)],
                       nextId := t.nextId + 1, clock := t.clock + 1)
  {
    if session.None? then Outcome(t, Fail(401))
    else if !Truthy(title) || !Truthy(description) || deviceId.None? then Outcome(t, Fail(400))
    else if DeviceWithId(t.devices, deviceId.value).None? then Outcome(t, Fail(404))
    else if OrElse(priority, "MEDIUM") !in Priorities || UserWithId(t.users, session.value.id).None? then Outcome(t, Fail(500))
    else
      var x := Ticket(t.nextId, ticketNumber, title.value, description.value, PENDING, OrElse(priority, "MEDIUM"),
                      session.value.id, deviceId.value, [], None, t.clock);
      Outcome(t.(tickets := t.tickets + [x], history := t.history + [HistoryEntry(x.id, None, PENDING, CreateNote)],
                 nextId := t.nextId + 1, clock := t.clock + 1), Ok(x))
  }

  /** POST against the database. */
  method Post(db: Database, session: Option<SessionUser>, title: Option<string>, description: Option<string>,
              deviceId: Option<nat>, priority: Option<string>, ticketNumber: string) returns (res: Response<Ticket>)
    requires db.Valid()
    modifies db
    ensures db.Valid()
    ensures Outcome(db.Snapshot(), res) == Create(old(db.Snapshot()), session, title, description, deviceId, priority, ticketNumber)
  {
    if session.None? {
      return Fail(401);
    }
    if !Truthy(title) || !Truthy(description) || deviceId.None? {
      return Fail(400);
    }
    if DeviceWithId(db.devices, deviceId.value).None? {
      return Fail(404);
    }
    if UserWithId(db.users, session.value.id).None? {
      return Fail(500);
    }
    var created := db.CreateTicket(Ticket(0, ticketNumber, title.value, description.value, PENDING,
                                          OrElse(priority, "MEDIUM"), session.value.id, deviceId.value, [], None, 0));
    if created.None? {
      return Fail(500);
    }
    db.AppendHistory(HistoryEntry(created.value.id, None, PENDING, CreateNote));
    res := Ok(created.value);
  }

  /** Creating a ticket keeps the tables consistent. */
  lemma CreateKeepsConsistent(t: Tables, session: Option<SessionUser>, title: Option<string>, description: Option<string>,
                              deviceId: Option<nat>, priority: Option<string>, ticketNumber: string)
    requires Consistent(t)
    ensures Consistent(Create(t, session, title, description, deviceId, priority, ticketNumber).after)
  {
  }

  /** A ticket just created heads its owner's first page when no filter is given. */
  lemma CreatedTicketHeadsFirstPage(t: Tables, session: SessionUser, title: Option<string>, description: Option<string>,
                                    deviceId: Option<nat>, priority: Option<string>, ticketNumber: string)
    requires Create(t, Some(session), title, description, deviceId, priority, ticketNumber).result.Ok?
    ensures var c := Create(t, Some(session), title, description, deviceId, priority, ticketNumber);
            var l := List(c.after, Some(session), Query(None, None, None, None, None));
            l.Ok? && |l.body.tickets| >= 1 && l.body.tickets[0] == c.result.body
  {
    var c := Create(t, Some(session), title, description, deviceId, priority, ticketNumber);
    var x := c.result.body;
    var q := Query(None, None, None, None, None);
    var w := WhereOf(session, None, None, None);
    assert List(c.after, Some(session), q) == Listing(c.after, session, 1, 10, q) by {
      DefaultPaging();
    }
    assert Listing(c.after, session, 1, 10, q).body.tickets == Newest(Select(c.after.users, w, c.after.tickets), 0, 10);
    assert Matches(t.users, w, x);
    NewestMatchHeadsPage(t.users, w, t.tickets, x);
  }

  /** A matching ticket stored last heads the first page. */
  lemma NewestMatchHeadsPage(users: seq<User>, w: Where, tickets: seq<Ticket>, x: Ticket)
    requires Matches(users, w, x)
    ensures var rows := Newest(Select(users, w, tickets + [x]), 0, 10);
            |rows| >= 1 && rows[0] == x
  {
    assert (tickets + [x])[..|tickets|] == tickets;
    var matched := Select(users, w, tickets + [x]);
    assert matched == Select(users, w, tickets) + [x];
    assert Reverse(matched)[0] == x;
  }
}
