/** `/api/user/link-line`: a signed-in user attaches a LINE id to their account
    (POST), reads whether one is attached (GET), or detaches it (DELETE). */
module LinkLine {
  import opened Common
  import opened Store

  /** The `user` object of the POST answer. */
  datatype LinkedUser = LinkedUser(id: nat, lineUserId: Option<string>, name: Option<string>, image: Option<string>)

  /** The GET answer: the selected columns and whether a LINE id is attached. */
  datatype LineStatus = LineStatus(id: nat, lineUserId: Option<string>, name: Option<string>, email: string,
                                   image: Option<string>, isLinked: bool)

  /** `x && !current ? x : current`: a supplied value fills a field the session has
      no truthy value for; otherwise the session's value is written back. */
  function FillIfUnset(supplied: Option<string>, current: Option<string>): (r: Option<string>)
    ensures Truthy(current) ==> r == current
    ensures !Truthy(current) && Truthy(supplied) ==> r == supplied
    ensures !Truthy(supplied) ==> r == current
  {
    if Truthy(supplied) && !Truthy(current) then supplied else current
  }

  /** The column a Prisma update leaves: a value to write replaces the stored one,
      an absent (`undefined`) value leaves the stored one in place. */
  function Patched(write: Option<string>, stored: Option<string>): (r: Option<string>)
    ensures write.Some? ==> r == write
    ensures write.None? ==> r == stored
  {
    if write.Some? then write else stored
  }

  /** A user other than `selfId` already holding `lineUid` (the `findFirst` with `NOT: {id}`). */
  function OtherHolder(users: seq<User>, lineUid: string, selfId: nat): Option<nat> {
    FirstIndex(users, (u: User) => u.lineUserId == Some(lineUid) && u.id != selfId)
  }

  /** POST: 401 without a session, 400 without a truthy `lineUid`, 409 when another
      user holds it, 500 when the session's user has no row (the update throws);
      otherwise the caller's row gets the LINE id and, where the session has none,
      the LINE display name and picture; a session value that is absent and not
      replaced leaves its column as stored. No other row changes. */
  function Link(t: Tables, session: Option<SessionUser>, lineUid: Option<string>,
                displayName: Option<string>, pictureUrl: Option<string>): (r: Outcome<Response<LinkedUser>>)
    ensures r.result == Fail(401) <==> session.None?
    ensures session.Some? ==> (r.result == Fail(400) <==> !Truthy(lineUid))
    ensures session.Some? && Truthy(lineUid) ==>
      (r.result == Fail(409) <==> exists k :: 0 <= k < |t.users| && t.users[k].lineUserId == lineUid && t.users[k].id != session.value.id)
    ensures session.Some? && Truthy(lineUid) &&
            (forall k :: 0 <= k < |t.users| && t.users[k].lineUserId == lineUid ==> t.users[k].id == session.value.id) ==>
      (r.result.Ok? <==> UserWithId(t.users, session.value.id).Some?) &&
      (r.result.Fail? ==> r.result.status == 500)
    ensures r.result.Fail? ==> r.after == t
    ensures r.result.Ok? ==>
      && session.Some? && Truthy(lineUid)
      && UserWithId(t.users, session.value.id).Some?
      && var i := UserWithId(t.users, session.value.id).value;
      && var u := t.users[i].(lineUserId := lineUid,
                              name := Patched(FillIfUnset(displayName, session.value.name), t.users[i].name),
                              image := Patched(FillIfUnset(pictureUrl, session.value.image), t.users[i].image));
      && r.after == t.(users := t.users[i := u])
      && r.result.body == LinkedUser(u.id, u.lineUserId, u.name, u.image)
  {
    if session.None? then Outcome(t, Fail(401))
    else if !Truthy(lineUid) then Outcome(t, Fail(400))
    else if OtherHolder(t.users, lineUid.value, session.value.id).Some? then Outcome(t, Fail(409))
    else match UserWithId(t.users, session.value.id)
      case None => Outcome(t, Fail(500))
      case Some(i) =>
        var u := t.users[i].(lineUserId := lineUid,
                             name := Patched(FillIfUnset(displayName, session.value.name), t.users[i].name),
                             image := Patched(FillIfUnset(pictureUrl, session.value.image), t.users[i].image));
        Outcome(t.(users := t.users[i := u]), Ok(LinkedUser(u.id, u.lineUserId, u.name, u.image)))
  }

  /** With no other holder, the LINE id is free for the caller's own row: user ids
      are unique, so any row holding it is the caller's. */
  lemma NoOtherHolderFrees(t: Tables, lineUid: string, i: nat)
    requires Consistent(t) && i < |t.users|
    requires OtherHolder(t.users, lineUid, t.users[i].id).None?
    ensures LineIdFreeFor(t.users, i, Some(lineUid))
  {
    forall k | 0 <= k < |t.users| && k != i
      ensures t.users[k].lineUserId != Some(lineUid)
    {
      assert t.users[k].id != t.users[i].id;
    }
  }

  /** Linking keeps the tables consistent. */
  lemma LinkKeepsConsistent(t: Tables, session: Option<SessionUser>, lineUid: Option<string>,
                            displayName: Option<string>, pictureUrl: Option<string>)
    requires Consistent(t)
    ensures Consistent(Link(t, session, lineUid, displayName, pictureUrl).after)
  {
    var r := Link(t, session, lineUid, displayName, pictureUrl);
    if r.result.Ok? {
      var i := UserWithId(t.users, session.value.id).value;
      NoOtherHolderFrees(t, lineUid.value, i);
      UpdateUserKeepsConsistent(t, i, r.after.users[i]);
      assert r.after.users == t.users[i := r.after.users[i]];
    }
  }

  /** A user who already holds a LINE id may post it again: no conflict arises. */
  lemma RelinkOwnUidSucceeds(t: Tables, session: SessionUser, lineUid: string,
                             displayName: Option<string>, pictureUrl: Option<string>)
    requires Consistent(t) && lineUid != ""
    requires UserWithId(t.users, session.id).Some?
    requires t.users[UserWithId(t.users, session.id).value].lineUserId == Some(lineUid)
    ensures Link(t, Some(session), Some(lineUid), displayName, pictureUrl).result.Ok?
  {
    var i := UserWithId(t.users, session.id).value;
    forall k | 0 <= k < |t.users|
      ensures !(t.users[k].lineUserId == Some(lineUid) && t.users[k].id != session.id)
    {
      if k != i {
        assert t.users[k].lineUserId != t.users[i].lineUserId;
      }
    }
  }

  /** POST against the database. */
  method PostLink(db: Database, session: Option<SessionUser>, lineUid: Option<string>,
                  displayName: Option<string>, pictureUrl: Option<string>) returns (res: Response<LinkedUser>)
    requires db.Valid()
    modifies db
    ensures db.Valid()
    ensures Outcome(db.Snapshot(), res) == Link(old(db.Snapshot()), session, lineUid, displayName, pictureUrl)
  {
    if session.None? {
      return Fail(401);
    }
    if !Truthy(lineUid) {
      return Fail(400);
    }
    var s := session.value;
    if OtherHolder(db.users, lineUid.value, s.id).Some? {
      return Fail(409);
    }
    var found := UserWithId(db.users, s.id);
    if found.None? {
      return Fail(500);
    }
    var i := found.value;
    NoOtherHolderFrees(db.Snapshot(), lineUid.value, i);
    var u := db.users[i].(lineUserId := lineUid,
                          name := Patched(FillIfUnset(displayName, s.name), db.users[i].name),
                          image := Patched(FillIfUnset(pictureUrl, s.image), db.users[i].image));
    db.SetUser(i, u);
    res := Ok(LinkedUser(u.id, u.lineUserId, u.name, u.image));
  }

  /** GET: 401 without a session, 404 without a row, else the row and whether a
      truthy LINE id is attached. Nothing changes. */
  function Status(t: Tables, session: Option<SessionUser>): (r: Response<LineStatus>)
    ensures r == Fail(401) <==> session.None?
    ensures session.Some? ==> (r == Fail(404) <==> UserWithId(t.users, session.value.id).None?)
    ensures r.Ok? ==> r.body.id == session.value.id && (r.body.isLinked <==> Truthy(r.body.lineUserId))
    ensures r.Ok? ==>
      && session.Some? && UserWithId(t.users, session.value.id).Some?
      && var u := t.users[UserWithId(t.users, session.value.id).value];
      && r.body == LineStatus(u.id, u.lineUserId, u.name, u.email, u.image, Truthy(u.lineUserId))
  {
    if session.None? then Fail(401)
    else match UserWithId(t.users, session.value.id)
      case None => Fail(404)
      case Some(i) =>
        var u := t.users[i];
        Ok(LineStatus(u.id, u.lineUserId, u.name, u.email, u.image, Truthy(u.lineUserId)))
  }

  /** DELETE: 401 without a session, 500 without a row (the update throws), else the
      caller's LINE id becomes null and the answer carries the caller's id. */
  function Unlink(t: Tables, session: Option<SessionUser>): (r: Outcome<Response<nat>>)
    ensures r.result == Fail(401) <==> session.None?
    ensures session.Some? ==>
      (r.result.Ok? <==> UserWithId(t.users, session.value.id).Some?) &&
      (r.result.Fail? ==> r.result.status == 500)
    ensures r.result.Fail? ==> r.after == t
    ensures r.result.Ok? ==>
      && session.Some? && UserWithId(t.users, session.value.id).Some?
      && var i := UserWithId(t.users, session.value.id).value;
      && r.after == t.(users := t.users[i := t.users[i].(lineUserId := None)])
      && r.result.body == session.value.id
  {
    if session.None? then Outcome(t, Fail(401))
    else match UserWithId(t.users, session.value.id)
      case None => Outcome(t, Fail(500))
      case Some(i) => Outcome(t.(users := t.users[i := t.users[i].(lineUserId := None)]), Ok(t.users[i].id))
  }

  /** DELETE against the database. */
  method DeleteLink(db: Database, session: Option<SessionUser>) returns (res: Response<nat>)
    requires db.Valid()
    modifies db
    ensures db.Valid()
    ensures Outcome(db.Snapshot(), res) == Unlink(old(db.Snapshot()), session)
  {
    if session.None? {
      return Fail(401);
    }
    var found := UserWithId(db.users, session.value.id);
    if found.None? {
      return Fail(500);
    }
    var ok := db.SetLineUserId(found.value, None);
    res := Ok(session.value.id);
  }

  /** Unlinking keeps the tables consistent: clearing a LINE id frees it. */
  lemma UnlinkKeepsConsistent(t: Tables, session: Option<SessionUser>)
    requires Consistent(t)
    ensures Consistent(Unlink(t, session).after)
  {
    var r := Unlink(t, session);
    if r.result.Ok? {
      var i := UserWithId(t.users, session.value.id).value;
      UpdateUserKeepsConsistent(t, i, t.users[i].(lineUserId := None));
    }
  }

  /** After a successful POST, GET reports the posted id as linked. */
  lemma LinkThenStatus(t: Tables, session: SessionUser, lineUid: Option<string>,
                       displayName: Option<string>, pictureUrl: Option<string>)
    requires Link(t, Some(session), lineUid, displayName, pictureUrl).result.Ok?
    ensures var s := Status(Link(t, Some(session), lineUid, displayName, pictureUrl).after, Some(session));
            s.Ok? && s.body.isLinked && s.body.lineUserId == lineUid
  {
    var i := UserWithId(t.users, session.id).value;
    var after := Link(t, Some(session), lineUid, displayName, pictureUrl).after;
    assert after.users[i].id == session.id;
    assert forall k :: 0 <= k < |after.users| ==> after.users[k].id == t.users[k].id;
    assert UserWithId(after.users, session.id) == Some(i);
  }

  /** After a successful DELETE, GET reports no link. */
  lemma UnlinkThenStatus(t: Tables, session: SessionUser)
    requires Unlink(t, Some(session)).result.Ok?
    ensures var s := Status(Unlink(t, Some(session)).after, Some(session));
            s.Ok? && !s.body.isLinked && s.body.lineUserId.None?
  {
    var i := UserWithId(t.users, session.id).value;
    var after := Unlink(t, Some(session)).after;
    assert forall k :: 0 <= k < |after.users| ==> after.users[k].id == t.users[k].id;
    assert UserWithId(after.users, session.id) == Some(i);
  }
}
