/** `/api/auth/register`: sign-up with e-mail and password, optionally with a phone
    number and a LINE id, followed by a LINE welcome message. */
module Register {
  import opened Common
  import opened Store
  import Utils

  /** The stored user as the answer shows it: every column except the password. */
  datatype UserView = UserView(
    id: nat,
    email: string,
    name: Option<string>,
    image: Option<string>,
    phone: Option<string>,
    lineUserId: Option<string>,
    role: string)

  function ViewOf(u: User): (v: UserView)
    ensures v.id == u.id && v.email == u.email && v.lineUserId == u.lineUserId
  {
    UserView(u.id, u.email, u.name, u.image, u.phone, u.lineUserId, u.role)
  }

  /** The bcrypt cost factor the route hashes passwords with. */
  const HashRounds: nat := 12

  /** The checks before anything is written, first failure first: the required
      fields, the e-mail format, the phone format when a phone is given, a free
      e-mail, and a free LINE id when one is given. True when all pass. */
  function Admissible(users: seq<User>, email: Option<string>, password: Option<string>, name: Option<string>,
                      phone: Option<string>, lineUserId: Option<string>): (ok: bool)
    ensures ok <==>
      && Truthy(email) && Truthy(password) && Truthy(name)
      && Utils.ValidateEmail(email.value)
      && (Truthy(phone) ==> Utils.ValidatePhone(phone.value))
      && (forall k :: 0 <= k < |users| ==> users[k].email != email.value)
      && (Truthy(lineUserId) ==> forall k :: 0 <= k < |users| ==> users[k].lineUserId != lineUserId)
  {
    && Truthy(email) && Truthy(password) && Truthy(name)
    && Utils.ValidateEmail(email.value)
    && !(Truthy(phone) && !Utils.ValidatePhone(phone.value))
    && UserWithEmail(users, email.value).None?
    && !(Truthy(lineUserId) && UserWithLineId(users, lineUserId.value).Some?)
  }

  /** The row the route creates; the id is the database's to assign. The role is the
      column default, which is not part of this model and comes in as `defaultRole`. */
  function NewUser(email: string, password: string, name: string, phone: Option<string>,
                   lineUserId: Option<string>, defaultRole: string): (u: User)
    ensures u.password == Some(Bcrypt(HashRounds, password))
  {
    User(0, email, Some(name), None, phone, Some(Bcrypt(HashRounds, password)), lineUserId, defaultRole)
  }

  /** POST: 400 on any failed check; 500 when the insert breaks a unique index, which
      only an empty LINE id that another user holds can do (the check above skips an
      empty id); otherwise the new user, and a welcome push to a truthy LINE id when
      that push goes through (`pushOk`). A failed push does not fail the request. */
  function Post(t: Tables, email: Option<string>, password: Option<string>, name: Option<string>,
                phone: Option<string>, lineUserId: Option<string>, defaultRole: string,
                pushOk: bool): (r: Outcome<Response<UserView>>)
    ensures !Admissible(t.users, email, password, name, phone, lineUserId) ==> r == Outcome(t, Fail(400))
    ensures r.result.Fail? ==> r.after == t
    ensures Admissible(t.users, email, password, name, phone, lineUserId)
            && !Insertable(t.users, NewUser(email.value, password.value, name.value, phone, lineUserId, defaultRole))
            ==> r == Outcome(t, Fail(500))
    ensures r.result.Ok? <==>
      Admissible(t.users, email, password, name, phone, lineUserId)
      && Insertable(t.users, NewUser(email.value, password.value, name.value, phone, lineUserId, defaultRole))
    ensures r.result.Ok? ==>
      var u := NewUser(email.value, password.value, name.value, phone, lineUserId, defaultRole).(id := t.nextId);
      && r.result.body == ViewOf(u)
      && r.after.users == t.users + [u]
      && r.after.nextId == t.nextId + 1
      && r.after.outbox == t.outbox + (if Truthy(lineUserId) && pushOk then [Push(lineUserId.value, RegistrationWelcome(name.value))] else [])
      && r.after == t.(users := r.after.users, outbox := r.after.outbox, nextId := r.after.nextId)
  {
    if !Admissible(t.users, email, password, name, phone, lineUserId) then Outcome(t, Fail(400))
    else Insert(t, NewUser(email.value, password.value, name.value, phone, lineUserId, defaultRole), name.value, pushOk)
  }

  /** The insert of an admitted row and the welcome push to its LINE id. */
  function Insert(t: Tables, u: User, name: string, pushOk: bool): (r: Outcome<Response<UserView>>)
    ensures r.result.Ok? <==> Insertable(t.users, u)
    ensures r.result.Fail? ==> r == Outcome(t, Fail(500))
    ensures r.result.Ok? ==>
      && r.after.users == t.users + [u.(id := t.nextId)]
      && r.result.body.id == t.nextId && r.result.body.email == u.email
      && r.after.nextId == t.nextId + 1
      && (|r.after.outbox| == |t.outbox| + 1 <==> Truthy(u.lineUserId) && pushOk)
  {
    if !Insertable(t.users, u) then Outcome(t, Fail(500))
    else
      var created := u.(id := t.nextId);
      var welcome := if Truthy(u.lineUserId) && pushOk then [Push(u.lineUserId.value, RegistrationWelcome(name))] else [];
      Outcome(t.(users := t.users + [created], nextId := t.nextId + 1, outbox := t.outbox + welcome), Ok(ViewOf(created)))
  }

  /** POST against the database. */
  method HandlePost(db: Database, email: Option<string>, password: Option<string>, name: Option<string>,
                    phone: Option<string>, lineUserId: Option<string>, defaultRole: string,
                    pushOk: bool) returns (res: Response<UserView>)
    requires db.Valid()
    modifies db
    ensures db.Valid()
    ensures Outcome(db.Snapshot(), res) == Post(old(db.Snapshot()), email, password, name, phone, lineUserId, defaultRole, pushOk)
  {
    if !Admissible(db.users, email, password, name, phone, lineUserId) {
      return Fail(400);
    }
    res := InsertIn(db, NewUser(email.value, password.value, name.value, phone, lineUserId, defaultRole), name.value, pushOk);
  }

  /** `Insert` against the database. */
  method InsertIn(db: Database, u: User, name: string, pushOk: bool) returns (res: Response<UserView>)
    requires db.Valid()
    modifies db
    ensures db.Valid()
    ensures Outcome(db.Snapshot(), res) == Insert(old(db.Snapshot()), u, name, pushOk)
  {
    var created := db.CreateUser(u);
    if created.None? {
      return Fail(500);
    }
    if Truthy(u.lineUserId) && pushOk {
      db.Send(u.lineUserId.value, RegistrationWelcome(name));
    }
    res := Ok(ViewOf(created.value));
  }

  /** When the checks pass and the LINE id is absent or non-empty, the insert succeeds:
      the checks already cover both unique indexes. */
  lemma AdmissibleInserts(t: Tables, email: Option<string>, password: Option<string>, name: Option<string>,
                          phone: Option<string>, lineUserId: Option<string>, defaultRole: string, pushOk: bool)
    requires Admissible(t.users, email, password, name, phone, lineUserId)
    requires lineUserId.None? || lineUserId.value != ""
    ensures Post(t, email, password, name, phone, lineUserId, defaultRole, pushOk).result.Ok?
  {
  }

  /** Registration keeps the tables consistent. */
  lemma PostKeepsConsistent(t: Tables, email: Option<string>, password: Option<string>, name: Option<string>,
                            phone: Option<string>, lineUserId: Option<string>, defaultRole: string, pushOk: bool)
    requires Consistent(t)
    ensures Consistent(Post(t, email, password, name, phone, lineUserId, defaultRole, pushOk).after)
  {
    var r := Post(t, email, password, name, phone, lineUserId, defaultRole, pushOk);
    if r.result.Ok? {
      var u := NewUser(email.value, password.value, name.value, phone, lineUserId, defaultRole);
      AddUserKeepsConsistent(t, u);
      assert r.after == t.(users := t.users + [u.(id := t.nextId)], nextId := t.nextId + 1).(outbox := r.after.outbox);
    }
  }

  /** A registered e-mail cannot register again. */
  lemma SecondRegistrationRejected(t: Tables, email: Option<string>, password: Option<string>, name: Option<string>,
                                   phone: Option<string>, lineUserId: Option<string>, defaultRole: string, pushOk: bool,
                                   password2: Option<string>, name2: Option<string>, phone2: Option<string>,
                                   lineUserId2: Option<string>, pushOk2: bool)
    requires Post(t, email, password, name, phone, lineUserId, defaultRole, pushOk).result.Ok?
    ensures var after := Post(t, email, password, name, phone, lineUserId, defaultRole, pushOk).after;
            Post(after, email, password2, name2, phone2, lineUserId2, defaultRole, pushOk2).result == Fail(400)
  {
    var after := Post(t, email, password, name, phone, lineUserId, defaultRole, pushOk).after;
    assert after.users[|t.users|].email == email.value;
  }

  /** As written, the phone check turns away a number written with spaces, whatever
      else the request carries. */
  lemma SpacedPhoneRejected(t: Tables, email: Option<string>, password: Option<string>, name: Option<string>,
                            lineUserId: Option<string>, defaultRole: string, pushOk: bool)
    ensures Post(t, email, password, name, Some("081 234 5678"), lineUserId, defaultRole, pushOk) == Outcome(t, Fail(400))
  {
    Utils.PhoneClassTakesLetterS();
  }

  /** The stored password is the bcrypt hash of the submitted one, never the text itself. */
  lemma StoredPasswordIsHashed(t: Tables, email: Option<string>, password: Option<string>, name: Option<string>,
                               phone: Option<string>, lineUserId: Option<string>, defaultRole: string, pushOk: bool)
    requires Post(t, email, password, name, phone, lineUserId, defaultRole, pushOk).result.Ok?
    ensures var after := Post(t, email, password, name, phone, lineUserId, defaultRole, pushOk).after;
            && |after.users| == |t.users| + 1
            && after.users[|t.users|].password == Some(Bcrypt(HashRounds, password.value))
            && UserWithEmail(after.users, email.value) == Some(|t.users|)
  {
  }
}
