/** `/api/auth/google-callback`: after a Google sign-in, attach the LINE id the user
    arrived with to the account with that e-mail, unless the account has one. */
module GoogleCallback {
  import opened Common
  import opened Store

  /** The `user` object of the answer. */
  datatype CallbackUser = CallbackUser(id: nat, email: string, lineUserId: Option<string>)

  /** POST: 400 unless both `userEmail` and `googleUid` are truthy, 404 when no user
      has that e-mail; a truthy `lineUid` is written only into an account without a
      truthy LINE id, and the write fails with 500 when another user holds that id.
      The answer echoes the account's id, e-mail and (possibly new) LINE id. */
  function Callback(t: Tables, userEmail: Option<string>, googleUid: Option<string>,
                    lineUid: Option<string>): (r: Outcome<Response<CallbackUser>>)
    ensures r.result == Fail(400) <==> !Truthy(userEmail) || !Truthy(googleUid)
    ensures Truthy(userEmail) && Truthy(googleUid) ==>
      (r.result == Fail(404) <==> UserWithEmail(t.users, userEmail.value).None?)
    ensures Truthy(userEmail) && Truthy(googleUid) && UserWithEmail(t.users, userEmail.value).Some? ==>
      var i := UserWithEmail(t.users, userEmail.value).value;
      (r.result == Fail(500) <==>
         Truthy(lineUid) && !Truthy(t.users[i].lineUserId) && !LineIdFreeFor(t.users, i, lineUid))
    ensures r.result.Fail? ==> r.after == t
    ensures r.result.Ok? ==>
      && Truthy(userEmail)
      && UserWithEmail(t.users, userEmail.value).Some?
      && var i := UserWithEmail(t.users, userEmail.value).value;
      && var writes := Truthy(lineUid) && !Truthy(t.users[i].lineUserId);
      && r.after.users == (if writes then t.users[i := t.users[i].(lineUserId := lineUid)] else t.users)
      && r.after == t.(users := r.after.users)
      && r.result.body == CallbackUser(t.users[i].id, userEmail.value, r.after.users[i].lineUserId)
  {
    if !Truthy(userEmail) || !Truthy(googleUid) then Outcome(t, Fail(400))
    else match UserWithEmail(t.users, userEmail.value)
      case None => Outcome(t, Fail(404))
      case Some(i) =>
        var u := t.users[i];
        if Truthy(lineUid) && !Truthy(u.lineUserId) then
          if LineIdFreeFor(t.users, i, lineUid) then
            Outcome(t.(users := t.users[i := u.(lineUserId := lineUid)]), Ok(CallbackUser(u.id, u.email, lineUid)))
          else Outcome(t, Fail(500))
        else Outcome(t, Ok(CallbackUser(u.id, u.email, u.lineUserId)))
  }

  /** POST against the database. */
  method HandleCallback(db: Database, userEmail: Option<string>, googleUid: Option<string>,
                        lineUid: Option<string>) returns (res: Response<CallbackUser>)
    requires db.Valid()
    modifies db
    ensures db.Valid()
    ensures Outcome(db.Snapshot(), res) == Callback(old(db.Snapshot()), userEmail, googleUid, lineUid)
  {
    if !Truthy(userEmail) || !Truthy(googleUid) {
      return Fail(400);
    }
    var found := UserWithEmail(db.users, userEmail.value);
    if found.None? {
      return Fail(404);
    }
    var u := db.users[found.value];
    if Truthy(lineUid) && !Truthy(u.lineUserId) {
      var ok := db.SetLineUserId(found.value, lineUid);
      if !ok {
        return Fail(500);
      }
      res := Ok(CallbackUser(u.id, u.email, lineUid));
    } else {
      res := Ok(CallbackUser(u.id, u.email, u.lineUserId));
    }
  }

  /** An account that already has a LINE id keeps it, whatever `lineUid` comes in. */
  lemma ExistingLinkNeverOverwritten(t: Tables, userEmail: Option<string>, googleUid: Option<string>,
                                     lineUid: Option<string>)
    requires Truthy(userEmail) && UserWithEmail(t.users, userEmail.value).Some?
    requires Truthy(t.users[UserWithEmail(t.users, userEmail.value).value].lineUserId)
    ensures Callback(t, userEmail, googleUid, lineUid).after == t
  {
  }

  /** An account found by e-mail that has no LINE id takes a LINE id nobody else
      holds: the row is written and the answer carries the new id. */
  lemma FreeLineIdWritten(t: Tables, userEmail: Option<string>, googleUid: Option<string>,
                          lineUid: Option<string>)
    requires Truthy(userEmail) && Truthy(googleUid) && Truthy(lineUid)
    requires UserWithEmail(t.users, userEmail.value).Some?
    requires !Truthy(t.users[UserWithEmail(t.users, userEmail.value).value].lineUserId)
    requires forall k :: 0 <= k < |t.users| ==> t.users[k].lineUserId != lineUid
    ensures var i := UserWithEmail(t.users, userEmail.value).value;
            Callback(t, userEmail, googleUid, lineUid)
              == Outcome(t.(users := t.users[i := t.users[i].(lineUserId := lineUid)]),
                         Ok(CallbackUser(t.users[i].id, userEmail.value, lineUid)))
  {
    var i := UserWithEmail(t.users, userEmail.value).value;
    assert LineIdFreeFor(t.users, i, lineUid);
  }

  /** The callback keeps the tables consistent. */
  lemma CallbackKeepsConsistent(t: Tables, userEmail: Option<string>, googleUid: Option<string>,
                                lineUid: Option<string>)
    requires Consistent(t)
    ensures Consistent(Callback(t, userEmail, googleUid, lineUid).after)
  {
    var r := Callback(t, userEmail, googleUid, lineUid);
    if r.after != t {
      var i := UserWithEmail(t.users, userEmail.value).value;
      UpdateUserKeepsConsistent(t, i, t.users[i].(lineUserId := lineUid));
    }
  }

  /** After the callback writes a LINE id, the LINE webhook's lookup by that id finds
      this account. */
  lemma LinkedAccountFoundByLineId(t: Tables, userEmail: Option<string>, googleUid: Option<string>,
                                   lineUid: Option<string>)
    requires Truthy(lineUid)
    requires Callback(t, userEmail, googleUid, lineUid).after != t
    ensures var after := Callback(t, userEmail, googleUid, lineUid).after;
            UserWithLineId(after.users, lineUid.value) == UserWithEmail(t.users, userEmail.value)
  {
    var i := UserWithEmail(t.users, userEmail.value).value;
    var after := Callback(t, userEmail, googleUid, lineUid).after;
    assert LineIdFreeFor(t.users, i, lineUid);
    assert after.users[i].lineUserId == lineUid;
    assert forall k :: 0 <= k < |after.users| && k != i ==> after.users[k].lineUserId != lineUid;
  }

  /** Unlike the link-line route, nothing checks for another holder first: writing a
      LINE id that another user holds breaks the unique index and fails with 500. */
  lemma HeldLineIdFails(t: Tables, userEmail: Option<string>, googleUid: Option<string>,
                        lineUid: Option<string>, k: nat)
    requires Truthy(userEmail) && Truthy(googleUid) && Truthy(lineUid)
    requires UserWithEmail(t.users, userEmail.value).Some?
    requires !Truthy(t.users[UserWithEmail(t.users, userEmail.value).value].lineUserId)
    requires k < |t.users| && t.users[k].lineUserId == lineUid
    ensures Callback(t, userEmail, googleUid, lineUid) == Outcome(t, Fail(500))
  {
    var i := UserWithEmail(t.users, userEmail.value).value;
    assert k != i;
  }
}
