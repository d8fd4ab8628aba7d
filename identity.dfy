/** The identity bootstrap endpoint (app/api/auth/route.ts): find the user
    with a given e-mail, or create one on the `free` plan. The read and the
    conditional insert run one after the other; concurrent calls are not
    modelled. */
module Identity {
  import opened Common
  import opened Store

  datatype AuthBody = AuthBody(email: Option<string>)

  datatype Body = UserBody(user: UserRow) | ErrorBody(error: string)

  datatype Reply = Reply(status: nat, body: Body)

  datatype Outcome = Outcome(reply: Reply, users: seq<UserRow>)

  /** The not-found code of `.single()` is the only fetch error that means
      "create the user"; any other code aborts the request. */
  predicate FetchAborts(fetched: Result<UserRow, DbError>) {
    fetched.Failure? && fetched.error.code != NotFoundCode
  }

  /** What POST /api/auth does to the users table and answers. `body` is None
      when the request is not JSON; `fetchFault` and `insertFault` are
      backend failures of the read and of the insert; `newId` is the id the
      database would give a new row. */
  function Bootstrap(
    users: seq<UserRow>,
    body: Option<AuthBody>,
    fetchFault: Option<DbError>,
    newId: string,
    insertFault: Option<DbError>): (o: Outcome)
    ensures o.users != users ==>
      && body.Some? && Truthy(body.value.email)
      && var row := UserRow(newId, body.value.email.value, Free);
         o.users == users + [row] && o.reply == Reply(200, UserBody(row))
    ensures |o.users| <= |users| + 1
    ensures body.None? ==> o == Outcome(Reply(500, ErrorBody("Internal server error")), users)
    ensures body.Some? && !Truthy(body.value.email) ==>
      o == Outcome(Reply(400, ErrorBody("Email is required")), users)
    ensures body.Some? && Truthy(body.value.email) && fetchFault.Some? && fetchFault.value.code != NotFoundCode ==>
      o == Outcome(Reply(500, ErrorBody("Error checking user: " + fetchFault.value.message)), users)
  {
    if body.None? then Outcome(Reply(500, ErrorBody("Internal server error")), users)
    else if !Truthy(body.value.email) then Outcome(Reply(400, ErrorBody("Email is required")), users)
    else
      var email := body.value.email.value;
      var fetched := if fetchFault.Some? then Failure(fetchFault.value) else Single(Matching(users, ByEmail(email)));
      if FetchAborts(fetched) then
        Outcome(Reply(500, ErrorBody("Error checking user: " + fetched.error.message)), users)
      else if fetched.Success? then
        Outcome(Reply(200, UserBody(fetched.value)), users)
      else
        match Inserted(UserRow(newId, email, Free), IdTaken(users, newId), insertFault, "users")
        case Failure(e) => Outcome(Reply(500, ErrorBody("Error creating user: " + e.message)), users)
        case Success(u) => Outcome(Reply(200, UserBody(u)), users + [u])
  }

  /** POST /api/auth against the database: a read, then an insert if the read
      found nobody. */
  method FindOrCreate(
    db: Database,
    body: Option<AuthBody>,
    fetchFault: Option<DbError>,
    newId: string,
    insertFault: Option<DbError>)
    returns (reply: Reply)
    modifies db
    ensures Outcome(reply, db.users) == Bootstrap(old(db.users), body, fetchFault, newId, insertFault)
    ensures db.feedback == old(db.feedback)
  {
    if body.None? {
      return Reply(500, ErrorBody("Internal server error"));
    }
    var email := body.value.email;
    if !Truthy(email) {
      return Reply(400, ErrorBody("Email is required"));
    }
    var existingUser := db.SelectUser(ByEmail(email.value), fetchFault);
    if FetchAborts(existingUser) {
      return Reply(500, ErrorBody("Error checking user: " + existingUser.error.message));
    }
    if existingUser.Success? {
      return Reply(200, UserBody(existingUser.value));
    }
    var newUser := db.InsertUser(newId, email.value, Free, insertFault);
    if newUser.Failure? {
      return Reply(500, ErrorBody("Error creating user: " + newUser.error.message));
    }
    reply := Reply(200, UserBody(newUser.value));
  }

  // ---------------------------------------------------------------------

  /** A fetch fault reported with the not-found code reads as "nobody", so
      the properties below exclude it. */
  predicate HonestFetch(fetchFault: Option<DbError>) {
    fetchFault.None? || fetchFault.value.code != NotFoundCode
  }

  /** An existing user is returned unchanged and nothing is inserted. */
  lemma ExistingUserIsReturned(users: seq<UserRow>, i: nat, newId: string, insertFault: Option<DbError>)
    requires UniqueEmails(users) && i < |users| && users[i].email != ""
    ensures Bootstrap(users, Some(AuthBody(Some(users[i].email))), None, newId, insertFault)
      == Outcome(Reply(200, UserBody(users[i])), users)
  {
    MatchingByEmail(users, i);
  }

  /** For an unknown e-mail, exactly one `free` row is inserted and returned,
      unless the insert fails, when nothing changes and the answer is 500. */
  lemma UnknownUserIsCreated(users: seq<UserRow>, email: string, newId: string, insertFault: Option<DbError>)
    requires email != "" && forall j :: 0 <= j < |users| ==> users[j].email != email
    ensures var o := Bootstrap(users, Some(AuthBody(Some(email))), None, newId, insertFault);
      if insertFault.None? && !IdTaken(users, newId) then
        o == Outcome(Reply(200, UserBody(UserRow(newId, email, Free))), users + [UserRow(newId, email, Free)])
      else
        o.users == users && o.reply.status == 500
  {
    FilterKeepsNone(users, (u: UserRow) => Selects(ByEmail(email), u));
  }

  /** The not-found distinction: after a failed read, a user is created if
      and only if the failure carries the not-found code (and the insert
      then succeeds); with any other code the request ends in 500 naming
      the read's error and the table is left alone. */
  lemma FetchFaultDistinction(
    users: seq<UserRow>, email: string, fault: DbError, newId: string, insertFault: Option<DbError>)
    requires email != ""
    ensures var o := Bootstrap(users, Some(AuthBody(Some(email))), Some(fault), newId, insertFault);
      && (o.users != users <==> fault.code == NotFoundCode && insertFault.None? && !IdTaken(users, newId))
      && (fault.code != NotFoundCode ==>
            o.reply == Reply(500, ErrorBody("Error checking user: " + fault.message)))
      && (fault.code == NotFoundCode && insertFault.None? && !IdTaken(users, newId) ==>
            o.reply == Reply(200, UserBody(UserRow(newId, email, Free))))
  {
    assert users + [UserRow(newId, email, Free)] != users by {
      assert |users + [UserRow(newId, email, Free)]| != |users|;
    }
  }

  /** The keys stay unique: a row is only inserted for an e-mail no row has,
      and only under an id no row has. */
  lemma {:induction false} BootstrapKeepsInvariants(
    users: seq<UserRow>, body: Option<AuthBody>, fetchFault: Option<DbError>, newId: string, insertFault: Option<DbError>)
    requires UniqueIds(users) && UniqueEmails(users) && HonestFetch(fetchFault)
    ensures var after := Bootstrap(users, body, fetchFault, newId, insertFault).users;
      UniqueIds(after) && UniqueEmails(after)
  {
    var after := Bootstrap(users, body, fetchFault, newId, insertFault).users;
    if after != users {
      var email := body.value.email.value;
      assert fetchFault.None?;
      assert |Matching(users, ByEmail(email))| != 1;
      UniqueEmailsMatchAtMostOne(users, email);
      assert Matching(users, ByEmail(email)) == [];
      assert !IdTaken(users, newId);
      forall j | 0 <= j < |users| ensures users[j].email != email && users[j].id != newId {
        assert users[j] in users;
        assert users[j] !in Matching(users, ByEmail(email));
      }
      assert after == users + [UserRow(newId, email, Free)];
    }
  }

  /** A successful call answers with a row of the new table that carries
      the requested e-mail; `i` is its position. */
  lemma {:induction false} SuccessfulBootstrapStoresUser(
    users: seq<UserRow>, email: string, fetchFault: Option<DbError>, newId: string, insertFault: Option<DbError>)
    returns (i: nat)
    requires HonestFetch(fetchFault)
    requires Bootstrap(users, Some(AuthBody(Some(email))), fetchFault, newId, insertFault).reply.status == 200
    ensures var o := Bootstrap(users, Some(AuthBody(Some(email))), fetchFault, newId, insertFault);
      i < |o.users| && o.reply == Reply(200, UserBody(o.users[i])) && o.users[i].email == email
  {
    var o := Bootstrap(users, Some(AuthBody(Some(email))), fetchFault, newId, insertFault);
    assert email != "" && fetchFault.None?;
    var matches := Matching(users, ByEmail(email));
    if |matches| == 1 {
      var u := matches[0];
      assert u in matches;
      assert o == Outcome(Reply(200, UserBody(u)), users);
      i :| i < |users| && users[i] == u;
    } else {
      i := |users|;
    }
  }

  /** Sequentially, a second call with the same e-mail after a successful
      first one returns the same user and inserts nothing, so two calls add
      at most one row. */
  lemma {:induction false} BootstrapIsIdempotent(
    users: seq<UserRow>, email: string,
    fetchFault: Option<DbError>, newId: string, insertFault: Option<DbError>,
    newId2: string, insertFault2: Option<DbError>)
    requires UniqueIds(users) && UniqueEmails(users) && HonestFetch(fetchFault)
    requires Bootstrap(users, Some(AuthBody(Some(email))), fetchFault, newId, insertFault).reply.status == 200
    ensures var first := Bootstrap(users, Some(AuthBody(Some(email))), fetchFault, newId, insertFault);
      var second := Bootstrap(first.users, Some(AuthBody(Some(email))), None, newId2, insertFault2);
      && second == first
      && |first.users| <= |users| + 1
  {
    var body := Some(AuthBody(Some(email)));
    var first := Bootstrap(users, body, fetchFault, newId, insertFault);
    BootstrapKeepsInvariants(users, body, fetchFault, newId, insertFault);
    var i := SuccessfulBootstrapStoresUser(users, email, fetchFault, newId, insertFault);
    MatchingByEmail(first.users, i);
  }
}
